/**
 * Venue enrichment: the request describing every venue to the model, and the map from venue
 * name to the description, tags and signature dish the model returns, with one retry.
 */
module VenueEnrichment {
  import opened Wrappers
  import opened LlmReply
  import opened Places

  /** The number of attempts at the model call. */
  const MaxAttempts: nat := 2

  /** One venue as the request describes it. */
  datatype EnrichmentRequest = EnrichmentRequest(
    name: string, types: seq<string>, rating: Option<real>, reviews: Option<int>,
    address: string, priceLevel: string)

  /** A venue's request entry: missing name and address become `""`, a missing price level `"UNKNOWN"`. */
  function RequestFor(v: Place): EnrichmentRequest {
    EnrichmentRequest(v.displayName.GetOr(""), v.types, v.rating, v.userRatingCount,
                      v.formattedAddress.GetOr(""), v.priceLevel.GetOr("UNKNOWN"))
  }

  /** `_build_user_message`: one entry per venue, in venue order (the JSON text is represented by its entries). */
  function BuildUserMessage(venues: seq<Place>): (r: seq<EnrichmentRequest>)
    ensures |r| == |venues|
    ensures forall i :: 0 <= i < |venues| ==> r[i] == RequestFor(venues[i])
  {
    if venues == [] then []
    else
      var init := BuildUserMessage(venues[..|venues| - 1]);
      assert forall i :: 0 <= i < |venues| - 1 ==> venues[..|venues| - 1][i] == venues[i];
      init + [RequestFor(venues[|venues| - 1])]
  }

  /** What each request entry says about a venue the provider left incomplete. */
  lemma RequestDefaults(venues: seq<Place>, i: int)
    requires 0 <= i < |venues|
    ensures var e := BuildUserMessage(venues)[i];
      && (venues[i].displayName.None? ==> e.name == "")
      && (venues[i].formattedAddress.None? ==> e.address == "")
      && (venues[i].priceLevel.None? ==> e.priceLevel == "UNKNOWN")
      && (venues[i].rating.None? ==> e.rating.None?)
      && (venues[i].userRatingCount.None? ==> e.reviews.None?)
      && e.types == venues[i].types
  {
  }

  /** The keys of one object of the model's reply; `name` may be missing, the rest are read later. */
  datatype Enrichment = Enrichment(
    name: Option<string>, description: Option<string>, cuisineTags: Option<seq<string>>,
    vibeTags: Option<seq<string>>, bestFor: Option<seq<string>>, signatureDish: Option<string>)

  /** One element of the parsed JSON array. */
  datatype EnrichmentItem = EnrichmentObject(fields: Enrichment) | NotAnObject

  /** Item `i` is stored under the name `k`. */
  predicate NamedAt(items: seq<EnrichmentItem>, i: int, k: string) {
    0 <= i < |items| && items[i].EnrichmentObject? && items[i].fields.name == Some(k)
  }

  /** An item the loop can store: an object that has a `name`. */
  predicate Storable(item: EnrichmentItem) {
    item.EnrichmentObject? && item.fields.name.Some?
  }

  /** The enrichment map after a pass over some items, and whether the pass got through all of them. */
  datatype Fill = Fill(entries: map<string, Enrichment>, ok: bool)

  /**
   * `enrichment_map[enrichment["name"]] = enrichment` for each item, from the map `m`; an item
   * without a name, or not an object, raises and leaves what was written so far.
   */
  function ApplyEnrichments(m: map<string, Enrichment>, items: seq<EnrichmentItem>): (r: Fill)
    ensures r.ok <==> forall i :: 0 <= i < |items| ==> Storable(items[i])
    ensures m.Keys <= r.entries.Keys
    ensures forall k :: k in r.entries ==> k in m || exists i :: NamedAt(items, i, k)
    decreases |items|
  {
    if items == [] then Fill(m, true)
    else if !Storable(items[0]) then Fill(m, false)
    else
      var k := items[0].fields.name.value;
      var r := ApplyEnrichments(m[k := items[0].fields], items[1..]);
      assert forall i :: 0 <= i < |items| - 1 ==> items[1..][i] == items[i + 1];
      assert NamedAt(items, 0, k);
      assert forall k, i :: NamedAt(items[1..], i, k) ==> NamedAt(items, i + 1, k);
      r
  }

  /**
   * After a pass over storable items, a name is a key exactly when it was one before or some item
   * carries it, and a later item with the same name overwrites an earlier one.
   */
  lemma {:induction false} ApplyEnrichmentsEntries(m: map<string, Enrichment>, items: seq<EnrichmentItem>, k: string)
    requires forall i :: 0 <= i < |items| ==> Storable(items[i])
    ensures var r := ApplyEnrichments(m, items).entries;
      && (k in r <==> k in m || exists i :: NamedAt(items, i, k))
      && (forall i :: NamedAt(items, i, k) && (forall j :: i < j < |items| ==> !NamedAt(items, j, k))
                      ==> r[k] == items[i].fields)
      && ((forall i :: !NamedAt(items, i, k)) && k in m ==> r[k] == m[k])
    decreases |items|
  {
    if items != [] {
      var k0 := items[0].fields.name.value;
      var m' := m[k0 := items[0].fields];
      var tail := items[1..];
      ApplyEnrichmentsEntries(m', tail, k);
      assert ApplyEnrichments(m, items) == ApplyEnrichments(m', tail);
      forall i | 0 <= i < |tail| ensures NamedAt(tail, i, k) <==> NamedAt(items, i + 1, k) {
        assert tail[i] == items[i + 1];
      }
      var r := ApplyEnrichments(m, items).entries;
      if exists i :: NamedAt(items, i, k) {
        var i :| NamedAt(items, i, k);
        if i > 0 {
          assert NamedAt(tail, i - 1, k);
        }
        assert k in r;
      }
      forall i | NamedAt(items, i, k) && (forall j :: i < j < |items| ==> !NamedAt(items, j, k))
        ensures k in r && r[k] == items[i].fields
      {
        if i > 0 {
          assert NamedAt(tail, i - 1, k);
          forall j | i - 1 < j < |tail| ensures !NamedAt(tail, j, k) {
            assert !NamedAt(items, j + 1, k);
          }
        } else {
          forall j | 0 <= j < |tail| ensures !NamedAt(tail, j, k) {
            assert !NamedAt(items, j + 1, k);
          }
        }
      }
      if (forall i :: !NamedAt(items, i, k)) && k in m {
        assert !NamedAt(items, 0, k);
        assert m'[k] == m[k];
        assert forall i :: !NamedAt(tail, i, k);
      }
    }
  }

  /** `enrichments` as the loop sees it: the parsed reply, or `None` when this attempt raised first. */
  function ParsedItems(reply: Reply, parse: string -> Option<seq<EnrichmentItem>>): Option<seq<EnrichmentItem>> {
    match ReplyPayload(reply)
    case None => None
    case Some(text) => parse(text)
  }

  /** One attempt from the map `m`: the map afterwards, and whether the attempt returned. */
  function Attempt(m: map<string, Enrichment>, reply: Reply, parse: string -> Option<seq<EnrichmentItem>>): (r: Fill)
    ensures ParsedItems(reply, parse).None? ==> r == Fill(m, false)
    ensures ParsedItems(reply, parse).Some? ==> r == ApplyEnrichments(m, ParsedItems(reply, parse).value)
  {
    match ParsedItems(reply, parse)
    case None => Fill(m, false)
    case Some(items) => ApplyEnrichments(m, items)
  }

  /** The result of the enrichment: the map returned, and how many model calls were made. */
  datatype Run = Run(enrichments: map<string, Enrichment>, calls: nat)

  /** The retry loop from attempt `attempt` on, with the map `m` carried over from earlier attempts. */
  function RetryFrom(request: seq<EnrichmentRequest>, llm: (seq<EnrichmentRequest>, nat) -> Reply,
                     parse: string -> Option<seq<EnrichmentItem>>, m: map<string, Enrichment>, attempt: nat): (r: Run)
    requires attempt <= MaxAttempts
    ensures attempt <= r.calls <= MaxAttempts
    ensures m.Keys <= r.enrichments.Keys
    decreases MaxAttempts - attempt
  {
    if attempt == MaxAttempts then Run(m, attempt)
    else
      var f := Attempt(m, llm(request, attempt), parse);
      if f.ok then Run(f.entries, attempt + 1)
      else RetryFrom(request, llm, parse, f.entries, attempt + 1)
  }

  /** A successful attempt ends the loop with its map. */
  lemma RetryDone(request: seq<EnrichmentRequest>, llm: (seq<EnrichmentRequest>, nat) -> Reply,
                  parse: string -> Option<seq<EnrichmentItem>>, m: map<string, Enrichment>, attempt: nat)
    requires attempt < MaxAttempts
    requires Attempt(m, llm(request, attempt), parse).ok
    ensures RetryFrom(request, llm, parse, m, attempt)
            == Run(Attempt(m, llm(request, attempt), parse).entries, attempt + 1)
  {
  }

  /** A failed attempt hands its map on to the next one. */
  lemma RetryStep(request: seq<EnrichmentRequest>, llm: (seq<EnrichmentRequest>, nat) -> Reply,
                  parse: string -> Option<seq<EnrichmentItem>>, m: map<string, Enrichment>, attempt: nat)
    requires attempt < MaxAttempts
    requires !Attempt(m, llm(request, attempt), parse).ok
    ensures RetryFrom(request, llm, parse, m, attempt)
            == RetryFrom(request, llm, parse, Attempt(m, llm(request, attempt), parse).entries, attempt + 1)
  {
  }

  /**
   * `enrich_venues(venues)` with the given API key, model and JSON parser: nothing is called for
   * an empty venue list or an empty key; otherwise at most two attempts.
   */
  function EnrichSpec(venues: seq<Place>, apiKey: string, llm: (seq<EnrichmentRequest>, nat) -> Reply,
                      parse: string -> Option<seq<EnrichmentItem>>): (r: Run)
    ensures r.calls <= MaxAttempts
    ensures r.calls == 0 <==> venues == [] || apiKey == ""
    ensures r.calls == 0 ==> r.enrichments == map[]
  {
    if venues == [] || apiKey == "" then Run(map[], 0)
    else RetryFrom(BuildUserMessage(venues), llm, parse, map[], 0)
  }

  /** The loop over the parsed items, writing into `enrichmentMap` in place. */
  method FillEnrichments(m: map<string, Enrichment>, enrichments: seq<EnrichmentItem>)
    returns (enrichmentMap: map<string, Enrichment>, ok: bool)
    ensures Fill(enrichmentMap, ok) == ApplyEnrichments(m, enrichments)
  {
    enrichmentMap := m;
    for i := 0 to |enrichments|
      invariant ApplyEnrichments(enrichmentMap, enrichments[i..]) == ApplyEnrichments(m, enrichments)
    {
      assert enrichments[i..][1..] == enrichments[i + 1..];
      var enrichment := enrichments[i];
      if !Storable(enrichment) {
        return enrichmentMap, false;
      }
      enrichmentMap := enrichmentMap[enrichment.fields.name.value := enrichment.fields];
    }
    ok := true;
  }

  /**
   * One attempt on the model's reply: take its first text block, strip a code fence, parse it and
   * write the parsed items into the map; `ok` is false when the attempt raises.
   */
  method EnrichmentAttempt(message: Reply, parse: string -> Option<seq<EnrichmentItem>>, m: map<string, Enrichment>)
    returns (enrichmentMap: map<string, Enrichment>, ok: bool)
    ensures Fill(enrichmentMap, ok) == Attempt(m, message, parse)
  {
    var payload := ReplyPayload(message);
    if payload.None? {
      return m, false;
    }
    var enrichments := parse(payload.value);
    if enrichments.None? {
      return m, false;
    }
    enrichmentMap, ok := FillEnrichments(m, enrichments.value);
  }

  /** The attempt loop of `enrich_venues` on a built request, all attempts sharing one map. */
  method RetryEnrichment(request: seq<EnrichmentRequest>, llm: (seq<EnrichmentRequest>, nat) -> Reply,
                         parse: string -> Option<seq<EnrichmentItem>>)
    returns (enrichmentMap: map<string, Enrichment>, calls: nat)
    ensures Run(enrichmentMap, calls) == RetryFrom(request, llm, parse, map[], 0)
  {
    enrichmentMap := map[];
    calls := 0;
    ghost var spec := RetryFrom(request, llm, parse, map[], 0);
    var attempt: nat := 0;
    while attempt < MaxAttempts
      invariant attempt <= MaxAttempts && calls == attempt
      invariant RetryFrom(request, llm, parse, enrichmentMap, attempt) == spec
      decreases MaxAttempts - attempt
    {
      ghost var before := enrichmentMap;
      var ok;
      enrichmentMap, ok := EnrichmentAttempt(llm(request, attempt), parse, enrichmentMap);
      calls := calls + 1;
      if ok {
        RetryDone(request, llm, parse, before, attempt);
        return;
      }
      RetryStep(request, llm, parse, before, attempt);
      attempt := attempt + 1;
    }
  }

  /** `enrich_venues`: the guards, then up to two attempts sharing one map. */
  method EnrichVenues(venues: seq<Place>, apiKey: string, llm: (seq<EnrichmentRequest>, nat) -> Reply,
                      parse: string -> Option<seq<EnrichmentItem>>)
    returns (enrichmentMap: map<string, Enrichment>, calls: nat)
    ensures Run(enrichmentMap, calls) == EnrichSpec(venues, apiKey, llm, parse)
  {
    if venues == [] || apiKey == "" {
      return map[], 0;
    }
    var request := BuildUserMessage(venues);
    enrichmentMap, calls := RetryEnrichment(request, llm, parse);
  }

  /** Every key of the result is the name of an object in some attempt's parsed reply. */
  lemma EnrichKeys(venues: seq<Place>, apiKey: string, llm: (seq<EnrichmentRequest>, nat) -> Reply,
                   parse: string -> Option<seq<EnrichmentItem>>, k: string)
    ensures var r := EnrichSpec(venues, apiKey, llm, parse);
      k in r.enrichments ==>
        exists a, i :: 0 <= a < r.calls && ParsedItems(llm(BuildUserMessage(venues), a), parse).Some?
                       && NamedAt(ParsedItems(llm(BuildUserMessage(venues), a), parse).value, i, k)
  {
    var request := BuildUserMessage(venues);
    var r := EnrichSpec(venues, apiKey, llm, parse);
    if k in r.enrichments {
      var f0 := Attempt(map[], llm(request, 0), parse);
      if k in f0.entries {
        var items := ParsedItems(llm(request, 0), parse).value;
        var i :| NamedAt(items, i, k);
      } else {
        var f1 := Attempt(f0.entries, llm(request, 1), parse);
        var items := ParsedItems(llm(request, 1), parse).value;
        var i :| NamedAt(items, i, k);
      }
    }
  }

  /**
   * When the first attempt returns a list of named objects, one call is made and the map holds, for
   * each name, the last object carrying it, and nothing else.
   */
  lemma FirstAttemptResult(venues: seq<Place>, apiKey: string, llm: (seq<EnrichmentRequest>, nat) -> Reply,
                           parse: string -> Option<seq<EnrichmentItem>>, k: string)
    requires venues != [] && apiKey != ""
    requires var items := ParsedItems(llm(BuildUserMessage(venues), 0), parse);
      items.Some? && forall i :: 0 <= i < |items.value| ==> Storable(items.value[i])
    ensures var items := ParsedItems(llm(BuildUserMessage(venues), 0), parse).value;
      var r := EnrichSpec(venues, apiKey, llm, parse);
      && r.calls == 1
      && (k in r.enrichments <==> exists i :: NamedAt(items, i, k))
      && (forall i :: NamedAt(items, i, k) && (forall j :: i < j < |items| ==> !NamedAt(items, j, k))
                      ==> r.enrichments[k] == items[i].fields)
  {
    var items := ParsedItems(llm(BuildUserMessage(venues), 0), parse).value;
    ApplyEnrichmentsEntries(map[], items, k);
  }

  /** When neither attempt gets as far as a parsed list, both calls are made and the map is empty. */
  lemma BothAttemptsFail(venues: seq<Place>, apiKey: string, llm: (seq<EnrichmentRequest>, nat) -> Reply,
                         parse: string -> Option<seq<EnrichmentItem>>)
    requires venues != [] && apiKey != ""
    requires ParsedItems(llm(BuildUserMessage(venues), 0), parse).None?
    requires ParsedItems(llm(BuildUserMessage(venues), 1), parse).None?
    ensures EnrichSpec(venues, apiKey, llm, parse) == Run(map[], 2)
  {
  }

  /**
   * The map is shared across attempts: a first reply `[{"name": "A"}, {}]` stores "A" and then
   * raises on the unnamed object, and a failed second call returns the map holding "A".
   */
  lemma FailedAttemptLeaks(venues: seq<Place>, apiKey: string, llm: (seq<EnrichmentRequest>, nat) -> Reply,
                           parse: string -> Option<seq<EnrichmentItem>>, text: string)
    requires venues != [] && apiKey != ""
    requires llm(BuildUserMessage(venues), 0) == Message([TextBlock(text)])
    requires parse(StripCodeFence(text)) == Some([EnrichmentObject(Enrichment(Some("A"), None, None, None, None, None)),
                                                  EnrichmentObject(Enrichment(None, None, None, None, None, None))])
    requires llm(BuildUserMessage(venues), 1) == CallFailed
    ensures EnrichSpec(venues, apiKey, llm, parse) == Run(map["A" := Enrichment(Some("A"), None, None, None, None, None)], 2)
  {
    var request := BuildUserMessage(venues);
    var named := EnrichmentObject(Enrichment(Some("A"), None, None, None, None, None));
    var unnamed := EnrichmentObject(Enrichment(None, None, None, None, None, None));
    var items := [named, unnamed];
    var written := map["A" := named.fields];
    assert FirstText([TextBlock(text)]) == Some(text);
    assert ParsedItems(llm(request, 0), parse) == Some(items);
    assert items[1..] == [unnamed];
    assert ApplyEnrichments(map[], items) == Fill(written, false);
    assert Attempt(map[], llm(request, 0), parse) == Fill(written, false);
    assert Attempt(written, llm(request, 1), parse) == Fill(written, false);
    assert RetryFrom(request, llm, parse, written, 1) == Run(written, 2);
  }
}
