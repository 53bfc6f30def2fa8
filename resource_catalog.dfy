/**
 * The resource catalog behind the `get_resource_fields` tool
 * (ads_mcp/tools/search.py: `_load_resources`, lines 72-79, and
 * `get_resource_fields`, lines 122-146).
 *
 * Loading collapses a missing or malformed catalog file into an empty
 * catalog. A lookup answers in three tiers: the first record whose name
 * equals the query; otherwise an error naming at most ten records whose
 * names contain the query; otherwise a generic not-found error.
 */
module ResourceCatalog {
  import opened Outcomes
  import opened Text

  /** One catalog record; `resource` is the name it is looked up by. */
  datatype ResourceSchema = ResourceSchema(resource: string, selectable: seq<string>,
                                           filterable: seq<string>, sortable: seq<string>)

  /** How opening and parsing the catalog file ended. */
  datatype ReadOutcome =
    | Parsed(records: seq<ResourceSchema>)
    | FileNotFound
    | JsonDecodeError
    | OtherFailure(reason: string)   // any other exception, which `_load_resources` does not catch

  /**
   * `_load_resources`: the parsed records; an empty catalog when the file
   * is missing or not valid JSON; any other failure propagates.
   */
  function LoadResources(outcome: ReadOutcome): (r: Result<seq<ResourceSchema>, string>)
    ensures r.Failure? <==> outcome.OtherFailure?
    ensures outcome.Parsed? ==> r == Success(outcome.records)
    ensures outcome.FileNotFound? || outcome.JsonDecodeError? ==> r == Success([])
  {
    match outcome
    case Parsed(records) => Success(records)
    case FileNotFound => Success([])
    case JsonDecodeError => Success([])
    case OtherFailure(reason) => Failure(reason)
  }

  /** The three answers of `get_resource_fields`. */
  datatype Lookup =
    | Found(schema: ResourceSchema)
    | DidYouMean(query: string, candidates: seq<string>)   // not found, with the candidate names
    | NotFound(query: string)                              // not found, see the search tool description

  /** The number of candidate names the partial-match error lists at most. */
  const MaxCandidates: nat := 10

  /** The scan for an exact match: the index of the first record named `resource`. */
  function FindExact(catalog: seq<ResourceSchema>, resource: string): (r: Option<nat>)
    ensures r.Some? ==> r.value < |catalog| && catalog[r.value].resource == resource
    ensures r.Some? ==> forall j :: 0 <= j < r.value ==> catalog[j].resource != resource
    ensures r.None? ==> forall j :: 0 <= j < |catalog| ==> catalog[j].resource != resource
  {
    if catalog == [] then None
    else if catalog[0].resource == resource then Some(0)
    else match FindExact(catalog[1..], resource)
      case None => None
      case Some(i) => Some(i + 1)
  }

  /** `[r for r in resources if resource in r["resource"]]`. */
  function PartialMatches(catalog: seq<ResourceSchema>, resource: string): (r: seq<ResourceSchema>)
    ensures |r| <= |catalog|
    ensures forall k :: 0 <= k < |r| ==> r[k] in catalog && Contains(r[k].resource, resource)
  {
    if catalog == [] then []
    else if Contains(catalog[0].resource, resource) then [catalog[0]] + PartialMatches(catalog[1..], resource)
    else PartialMatches(catalog[1..], resource)
  }

  /** The names of some records. */
  function Names(records: seq<ResourceSchema>): (r: seq<string>)
    ensures |r| == |records| && forall k :: 0 <= k < |r| ==> r[k] == records[k].resource
  {
    seq(|records|, k requires 0 <= k < |records| => records[k].resource)
  }

  /** The first `n` elements, or all of them when there are fewer: Python's `xs[:n]`. */
  function Take<T>(xs: seq<T>, n: nat): (r: seq<T>)
    ensures |r| == if |xs| < n then |xs| else n
    ensures forall k :: 0 <= k < |r| ==> r[k] == xs[k]
  {
    if |xs| <= n then xs else xs[..n]
  }

  /**
   * `get_resource_fields` on a loaded catalog: a catalog record named
   * `resource`, or an error carrying the query and, for a partial match,
   * between one and ten candidate names that contain it.
   */
  function GetResourceFields(catalog: seq<ResourceSchema>, resource: string): (r: Lookup)
    ensures r.Found? ==> r.schema in catalog && r.schema.resource == resource
    ensures r.DidYouMean? ==>
              && r.query == resource && 1 <= |r.candidates| <= MaxCandidates
              && forall k :: 0 <= k < |r.candidates| ==> Contains(r.candidates[k], resource)
    ensures r.NotFound? ==> r.query == resource
  {
    match FindExact(catalog, resource)
    case Some(i) => Found(catalog[i])
    case None =>
      var matches := PartialMatches(catalog, resource);
      if matches != [] then DidYouMean(resource, Names(Take(matches, MaxCandidates)))
      else NotFound(resource)
  }

  /** The tool as called: it loads the catalog itself, then looks the resource up. */
  function GetResourceFieldsFromFile(outcome: ReadOutcome, resource: string): (r: Result<Lookup, string>)
    ensures r.Failure? <==> outcome.OtherFailure?
    ensures r.Success? && r.value.Found? ==> outcome.Parsed? && r.value.schema in outcome.records
  {
    match LoadResources(outcome)
    case Failure(e) => Failure(e)
    case Success(catalog) => Success(GetResourceFields(catalog, resource))
  }

  // ---- properties of the partial-match filter -----------------------------

  /** `xs` is `ys` with some elements left out, the rest in their order. */
  predicate IsSubsequence<T(==)>(xs: seq<T>, ys: seq<T>)
  {
    xs == [] || (ys != [] && ((xs[0] == ys[0] && IsSubsequence(xs[1..], ys[1..])) || IsSubsequence(xs, ys[1..])))
  }

  /** How many records' names contain `resource`. */
  function MatchCount(catalog: seq<ResourceSchema>, resource: string): (r: nat)
  {
    if catalog == [] then 0
    else (if Contains(catalog[0].resource, resource) then 1 else 0) + MatchCount(catalog[1..], resource)
  }

  /**
   * The filter keeps exactly the records whose names contain the query:
   * each kept name contains it, none is dropped, and catalog order is kept.
   */
  lemma {:induction false} PartialMatchesSpec(catalog: seq<ResourceSchema>, resource: string)
    ensures var m := PartialMatches(catalog, resource);
            && (forall k :: 0 <= k < |m| ==> Contains(m[k].resource, resource))
            && |m| == MatchCount(catalog, resource)
            && IsSubsequence(m, catalog)
            && (m == [] <==> forall j :: 0 <= j < |catalog| ==> !Contains(catalog[j].resource, resource))
  {
    if catalog != [] {
      PartialMatchesSpec(catalog[1..], resource);
      var m := PartialMatches(catalog, resource);
      var rest := PartialMatches(catalog[1..], resource);
      if Contains(catalog[0].resource, resource) {
        assert m[0] == catalog[0] && m[1..] == rest;
      } else {
        assert m == rest;
        if rest == [] {
          forall j | 0 <= j < |catalog| ensures !Contains(catalog[j].resource, resource) {
            if j > 0 { assert catalog[j] == catalog[1..][j - 1]; }
          }
        } else {
          var j :| 0 <= j < |catalog[1..]| && Contains(catalog[1..][j].resource, resource);
          assert catalog[j + 1] == catalog[1..][j];
        }
      }
    }
  }

  /** A prefix of a subsequence is a subsequence. */
  lemma {:induction false} PrefixOfSubsequence<T>(xs: seq<T>, ys: seq<T>, n: nat)
    requires IsSubsequence(xs, ys) && n <= |xs|
    ensures IsSubsequence(xs[..n], ys)
  {
    if n == 0 {
    } else if xs[0] == ys[0] && IsSubsequence(xs[1..], ys[1..]) {
      PrefixOfSubsequence(xs[1..], ys[1..], n - 1);
      assert xs[..n][1..] == xs[1..][..n - 1];
    } else {
      PrefixOfSubsequence(xs, ys[1..], n);
    }
  }

  /** Taking names keeps the subsequence relation. */
  lemma {:induction false} NamesOfSubsequence(xs: seq<ResourceSchema>, ys: seq<ResourceSchema>)
    requires IsSubsequence(xs, ys)
    ensures IsSubsequence(Names(xs), Names(ys))
  {
    if xs != [] {
      assert Names(xs)[1..] == Names(xs[1..]);
      assert Names(ys)[1..] == Names(ys[1..]);
      if xs[0] == ys[0] && IsSubsequence(xs[1..], ys[1..]) {
        NamesOfSubsequence(xs[1..], ys[1..]);
      } else {
        NamesOfSubsequence(xs, ys[1..]);
      }
    }
  }

  // ---- the three tiers of the lookup ---------------------------------------

  /** When some record is named `resource`, the first such record is returned unchanged. */
  lemma ExactMatchFirst(catalog: seq<ResourceSchema>, resource: string, i: nat)
    requires i < |catalog| && catalog[i].resource == resource
    requires forall j :: 0 <= j < i ==> catalog[j].resource != resource
    ensures GetResourceFields(catalog, resource) == Found(catalog[i])
  {
  }

  /**
   * With no exact match but some name containing the query, the error lists
   * the first at most ten such names, each containing the query, in catalog
   * order.
   */
  lemma PartialMatchTier(catalog: seq<ResourceSchema>, resource: string)
    requires forall j :: 0 <= j < |catalog| ==> catalog[j].resource != resource
    requires exists j :: 0 <= j < |catalog| && Contains(catalog[j].resource, resource)
    ensures var r := GetResourceFields(catalog, resource);
            && r.DidYouMean? && r.query == resource
            && |r.candidates| == (if MatchCount(catalog, resource) < MaxCandidates
                                  then MatchCount(catalog, resource) else MaxCandidates)
            && (forall k :: 0 <= k < |r.candidates| ==> Contains(r.candidates[k], resource))
            && IsSubsequence(r.candidates, Names(catalog))
            && r.candidates == Names(Take(PartialMatches(catalog, resource), MaxCandidates))
  {
    var m := PartialMatches(catalog, resource);
    PartialMatchesSpec(catalog, resource);
    var shown := Take(m, MaxCandidates);
    PrefixOfSubsequence(m, catalog, |shown|);
    assert shown == m[..|shown|];
    NamesOfSubsequence(shown, catalog);
  }

  /** With no record whose name contains the query, the generic error is returned. */
  lemma NoMatchTier(catalog: seq<ResourceSchema>, resource: string)
    requires forall j :: 0 <= j < |catalog| ==> !Contains(catalog[j].resource, resource)
    ensures GetResourceFields(catalog, resource) == NotFound(resource)
  {
    PartialMatchesSpec(catalog, resource);
    forall j | 0 <= j < |catalog| ensures catalog[j].resource != resource {
      assert StartsWith(resource, resource);
    }
  }

  /**
   * The answer is the partial-match error exactly when there is no exact
   * match and some name contains the query.
   */
  lemma TierChoice(catalog: seq<ResourceSchema>, resource: string)
    ensures var r := GetResourceFields(catalog, resource);
            && (r.Found? <==> exists j :: 0 <= j < |catalog| && catalog[j].resource == resource)
            && (r.DidYouMean? <==>
                  && (forall j :: 0 <= j < |catalog| ==> catalog[j].resource != resource)
                  && (exists j :: 0 <= j < |catalog| && Contains(catalog[j].resource, resource)))
  {
    PartialMatchesSpec(catalog, resource);
  }

  /**
   * The load policy as the tool's caller sees it: a missing or malformed
   * catalog file gives the generic not-found error for every query, any
   * other read failure propagates as it is, and parsed records are searched.
   */
  lemma LoadPolicy(outcome: ReadOutcome, resource: string)
    ensures outcome.FileNotFound? || outcome.JsonDecodeError? ==>
              GetResourceFieldsFromFile(outcome, resource) == Success(NotFound(resource))
    ensures outcome.OtherFailure? ==> GetResourceFieldsFromFile(outcome, resource) == Failure(outcome.reason)
    ensures outcome.Parsed? ==>
              GetResourceFieldsFromFile(outcome, resource) == Success(GetResourceFields(outcome.records, resource))
  {
    NoMatchTier([], resource);
  }

  /**
   * The empty query is contained in every name, so without a record named ""
   * it lists the first (up to ten) names of a non-empty catalog. (An empty
   * catalog gives the generic not-found error instead.)
   */
  lemma EmptyQueryListsFirstNames(catalog: seq<ResourceSchema>)
    requires catalog != []
    requires forall j :: 0 <= j < |catalog| ==> catalog[j].resource != ""
    ensures GetResourceFields(catalog, "") == DidYouMean("", Names(Take(catalog, MaxCandidates)))
  {
    EveryNameContainsEmpty(catalog);
    assert StartsWith(catalog[0].resource, "");
  }

  lemma {:induction false} EveryNameContainsEmpty(catalog: seq<ResourceSchema>)
    ensures PartialMatches(catalog, "") == catalog
  {
    if catalog != [] {
      assert StartsWith(catalog[0].resource, "");
      EveryNameContainsEmpty(catalog[1..]);
    }
  }
}
