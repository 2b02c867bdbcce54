/**
 * The three agents of TravelAgents.py, reduced to their identities: their
 * roles, goals, personas, language model and tool list are configuration
 * with no behaviour of their own here.
 */
module TravelAgents {

  datatype Agent = LocationExpert | GuideExpert | PlannerExpert
}
