/** The query classifier of `RAGApplication` (app.py:72-87): a lower-cased query is matched
    against two fixed phrase lists by substring, the menu-creation list first. */
module Routing {
  import opened Text

  /** The three kinds of request `get_response` dispatches on. */
  datatype QueryType = MenuCreation | EventLookup | General

  /** The string `_determine_query_type` returns for each kind. */
  function QueryTypeName(t: QueryType): string {
    match t
    case MenuCreation => "menu_creation"
    case EventLookup => "event_lookup"
    case General => "general"
  }

  const MenuCreationPhrases: seq<string> :=
    ["create", "make", "design", "suggest", "new menu", "what would you recommend", "can you prepare"]

  const EventLookupPhrases: seq<string> :=
    ["what was", "tell me about", "details for", "information about", "pricing for",
     "menu for the", "what did we serve"]

  /** `_determine_query_type(query)`. */
  function DetermineQueryType(query: string): QueryType {
    var lower := LowerStr(query);
    if ContainsAny(lower, MenuCreationPhrases) then MenuCreation
    else if ContainsAny(lower, EventLookupPhrases) then EventLookup
    else General
  }

  /** The classifier answers with exactly one of the three names. */
  lemma QueryTypeNames(query: string)
    ensures var n := QueryTypeName(DetermineQueryType(query));
      n == "menu_creation" || n == "event_lookup" || n == "general"
    ensures QueryTypeName(DetermineQueryType(query)) == "general" <==> DetermineQueryType(query) == General
  {
  }

  /** A menu-creation phrase anywhere in the query, in any letter case, wins over every
      event-lookup phrase; an event-lookup phrase decides only when no menu-creation phrase
      occurs; and the answer is "general" exactly when no phrase of either list occurs. */
  lemma ClassifierCases(query: string, k: nat)
    ensures k < |MenuCreationPhrases| && Contains(LowerStr(query), MenuCreationPhrases[k]) ==>
      DetermineQueryType(query) == MenuCreation
    ensures (k < |EventLookupPhrases| && Contains(LowerStr(query), EventLookupPhrases[k])
             && !ContainsAny(LowerStr(query), MenuCreationPhrases)) ==>
      DetermineQueryType(query) == EventLookup
    ensures DetermineQueryType(query) == General <==>
      !ContainsAny(LowerStr(query), MenuCreationPhrases + EventLookupPhrases)
  {
    ContainsAnyConcat(LowerStr(query), MenuCreationPhrases, EventLookupPhrases);
  }

  /** Matching ignores letter case: the classifier gives a query and its lower-case form the
      same kind. */
  lemma CaseInsensitive(query: string)
    ensures DetermineQueryType(LowerStr(query)) == DetermineQueryType(query)
  {
    LowerStrIdempotent(query);
  }

  /** Words around a query never take a kind away: text added before or after a query that
      asks for a new menu still asks for one, and a query that looks an event up still does
      unless the added text brings a menu-creation phrase. */
  lemma ExtendedQuery(before: string, query: string, after: string)
    ensures DetermineQueryType(query) == MenuCreation ==>
      DetermineQueryType(before + query + after) == MenuCreation
    ensures DetermineQueryType(query) == EventLookup ==>
      DetermineQueryType(before + query + after) != General
  {
    var lower := LowerStr(query);
    LowerStrConcat(before, query);
    LowerStrConcat(before + query, after);
    assert LowerStr(before + query + after) == LowerStr(before) + lower + LowerStr(after);
    if ContainsAny(lower, MenuCreationPhrases) {
      ContainsAnyExtend(LowerStr(before), lower, LowerStr(after), MenuCreationPhrases);
    } else if ContainsAny(lower, EventLookupPhrases) {
      ContainsAnyExtend(LowerStr(before), lower, LowerStr(after), EventLookupPhrases);
    }
  }
}
