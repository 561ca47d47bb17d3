/** `resolve_entity_id`: the provider's entity id for an airport code, from a
    fixed table of five airports, looked up without regard to case. */
module Entities {
  import opened Text

  /** The provider entity ids of the five airports the handler knows. */
  const KnownEntities: map<string, string> := map[
    "IAD" := "29475437",  // Washington Dulles
    "BLR" := "29475359",  // Bengaluru
    "JFK" := "29475432",  // New York JFK
    "LHR" := "29475430",  // London Heathrow
    "DXB" := "29475431"   // Dubai
  ]

  /** The entity id of `query`: the table's id when the upper-cased query is
      one of the five codes, otherwise the query exactly as given. */
  function ResolveEntityId(query: string): (r: string)
    ensures Upper(query) in KnownEntities ==> r == KnownEntities[Upper(query)]
    ensures Upper(query) !in KnownEntities ==> r == query
  {
    if Upper(query) in KnownEntities then KnownEntities[Upper(query)] else query
  }

  /** Upper-casing twice is upper-casing once. */
  lemma UpperIdempotent(s: string)
    ensures Upper(Upper(s)) == Upper(s)
  {
    forall i | 0 <= i < |s| ensures Upper(Upper(s))[i] == Upper(s)[i] {
      var c := s[i];
      assert UpperChar(UpperChar(c)) == UpperChar(c);
    }
  }

  /** Two spellings of a code that differ only in case resolve alike. */
  lemma ResolveIgnoresCase(q1: string, q2: string)
    requires Upper(q1) == Upper(q2) && Upper(q1) in KnownEntities
    ensures ResolveEntityId(q1) == ResolveEntityId(q2)
  {
  }

  /** Resolving the upper-cased query of a known code gives the same id. */
  lemma ResolveUpper(q: string)
    requires Upper(q) in KnownEntities
    ensures ResolveEntityId(Upper(q)) == ResolveEntityId(q)
  {
    UpperIdempotent(q);
  }

  /** The result is always one of the five ids or the query itself. */
  lemma ResolveRange(q: string)
    ensures ResolveEntityId(q) in KnownEntities.Values || ResolveEntityId(q) == q
  {
  }

  /** A lower-case known code resolves; an unknown code comes back unchanged,
      not upper-cased. */
  lemma ResolveExamples()
    ensures ResolveEntityId("iad") == "29475437"
    ensures ResolveEntityId("Lhr") == "29475430"
    ensures ResolveEntityId("sfo") == "sfo"
  {
    assert Upper("iad") == "IAD";
    assert Upper("Lhr") == "LHR";
    assert Upper("sfo") == "SFO";
  }
}
