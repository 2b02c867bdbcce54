/**
 * An f-string as the program writes it: literal text interleaved with
 * substituted fields. Rendering concatenates the parts; the lemmas say where
 * each part lands in the result, which is how the prompts and the
 * export documents are shown to carry the values substituted into them.
 */
module FStrings {

  datatype Part = Lit(text: string) | Sub(text: string)

  function Render(parts: seq<Part>): string {
    if parts == [] then "" else parts[0].text + Render(parts[1..])
  }

  /** `sub` occurs in `s` as a contiguous run of characters. */
  ghost predicate IsInfix(sub: string, s: string) {
    exists i :: 0 <= i <= |s| && sub <= s[i..]
  }

  /** Whatever text stands before and after `sub`, `sub` occurs in the whole. */
  lemma InfixOfConcat(pre: string, sub: string, post: string)
    ensures IsInfix(sub, pre + sub + post)
  {
    var s := pre + sub + post;
    assert sub <= s[|pre|..];
  }

  /** Rendering distributes over concatenation of part lists. */
  lemma {:induction false} RenderAppend(a: seq<Part>, b: seq<Part>)
    ensures Render(a + b) == Render(a) + Render(b)
    decreases |a|
  {
    if a == [] {
      assert a + b == b;
    } else {
      assert (a + b)[0] == a[0];
      assert (a + b)[1..] == a[1..] + b;
      RenderAppend(a[1..], b);
    }
  }

  lemma RenderAppend3(a: seq<Part>, b: seq<Part>, c: seq<Part>)
    ensures Render(a + b + c) == Render(a) + Render(b) + Render(c)
  {
    RenderAppend(a + b, c);
    RenderAppend(a, b);
  }

  lemma RenderThree(a: Part, b: Part, c: Part)
    ensures Render([a, b, c]) == a.text + b.text + c.text
  {
    assert [a, b, c][1..] == [b, c];
    assert [b, c][1..] == [c];
    assert [c][1..] == [];
    assert Render([c]) == c.text + "" == c.text;
    assert Render([b, c]) == b.text + c.text;
  }

  /** Two fields with literal text between them, as in "{a} to {b}". */
  function Span(a: string, sep: string, b: string): seq<Part> {
    [Sub(a), Lit(sep), Sub(b)]
  }

  /** A field with literal text on both sides, as in " ({n} days)". */
  function Framed(before: string, field: string, after: string): seq<Part> {
    [Lit(before), Sub(field), Lit(after)]
  }

  lemma RenderSpan(a: string, sep: string, b: string)
    ensures Render(Span(a, sep, b)) == a + sep + b
  {
    RenderThree(Sub(a), Lit(sep), Sub(b));
  }

  lemma RenderFramed(before: string, field: string, after: string)
    ensures Render(Framed(before, field, after)) == before + field + after
  {
    RenderThree(Lit(before), Sub(field), Lit(after));
  }

  /** A run of parts renders to a contiguous piece of any template it stands in. */
  lemma RenderInfix(pre: seq<Part>, mid: seq<Part>, post: seq<Part>)
    ensures IsInfix(Render(mid), Render(pre + mid + post))
  {
    RenderAppend3(pre, mid, post);
    InfixOfConcat(Render(pre), Render(mid), Render(post));
  }

  /** In a template of four runs of parts, each run renders to a piece of the whole. */
  lemma RenderInfix4(a: seq<Part>, b: seq<Part>, c: seq<Part>, d: seq<Part>)
    ensures var s := Render(a + b + c + d);
            IsInfix(Render(a), s) && IsInfix(Render(b), s) && IsInfix(Render(c), s) && IsInfix(Render(d), s)
  {
    RenderInfix([], a, b + c + d);
    assert [] + a + (b + c + d) == a + b + c + d;
    RenderInfix(a, b, c + d);
    assert a + b + (c + d) == a + b + c + d;
    RenderInfix(a + b, c, d);
    RenderInfix(a + b + c, d, []);
    assert a + b + c + d + [] == a + b + c + d;
  }

  /** In a template of five runs of parts, the second and the fourth render to pieces of the whole. */
  lemma RenderInfix5(a: seq<Part>, b: seq<Part>, c: seq<Part>, d: seq<Part>, e: seq<Part>)
    ensures var s := Render(a + b + c + d + e);
            IsInfix(Render(b), s) && IsInfix(Render(d), s)
  {
    RenderInfix(a, b, c + d + e);
    assert a + b + (c + d + e) == a + b + c + d + e;
    RenderInfix(a + b + c, d, e);
  }

  /** Occurring in is transitive. */
  lemma InfixTransitive(a: string, b: string, c: string)
    requires IsInfix(a, b) && IsInfix(b, c)
    ensures IsInfix(a, c)
  {
    var i :| 0 <= i <= |b| && a <= b[i..];
    var j :| 0 <= j <= |c| && b <= c[j..];
    assert forall k :: 0 <= k < |a| ==> a[k] == b[i + k] == c[j + i + k];
    assert a <= c[j + i..];
  }

  /** Both fields of a span occur in its rendering. */
  lemma SpanFields(a: string, sep: string, b: string)
    ensures IsInfix(a, Render(Span(a, sep, b))) && IsInfix(b, Render(Span(a, sep, b)))
  {
    RenderSpan(a, sep, b);
    InfixOfConcat("", a, sep + b);
    assert "" + a + (sep + b) == a + sep + b;
    InfixOfConcat(a + sep, b, "");
    assert a + sep + b + "" == a + sep + b;
  }

  /** The field of a framed run occurs in its rendering. */
  lemma FramedField(before: string, field: string, after: string)
    ensures IsInfix(field, Render(Framed(before, field, after)))
  {
    RenderFramed(before, field, after);
    InfixOfConcat(before, field, after);
  }
}
