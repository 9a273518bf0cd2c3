/** The scraper's two loops: collecting the operator list from the index cards, and
    turning each operator into an output record, in list order. */
module Pipeline {
  import opened Wrappers
  import opened Errors
  import opened Urls
  import opened Loadouts
  import opened Records

  /** The outcome for one operator when `fetch` gives the result of downloading and
      searching a detail page. */
  function Outcome(op: Summary, fetch: string -> Option<Content>): Result<OutputRecord, ScrapeError> {
    Process(op, fetch(op.url))
  }

  /** The card loop: one list entry per card, in page order. */
  method ListOperators(cards: seq<Card>) returns (ops: seq<Summary>)
    ensures |ops| == |cards|
    ensures forall i :: 0 <= i < |cards| ==> ops[i] == Summarize(cards[i])
  {
    ops := [];
    for i := 0 to |cards|
      invariant |ops| == i
      invariant forall k :: 0 <= k < i ==> ops[k] == Summarize(cards[k])
    {
      ops := ops + [Summarize(cards[i])];
    }
  }

  /** The operator loop: appends one record per operator in list order and aborts, with
      no result, at the first operator that fails. */
  method ProcessOperators(ops: seq<Summary>, fetch: string -> Option<Content>)
    returns (r: Result<seq<OutputRecord>, ScrapeError>)
    ensures r.Ok? <==> forall i :: 0 <= i < |ops| ==> Outcome(ops[i], fetch).Ok?
    ensures r.Ok? ==> |r.value| == |ops| && forall i :: 0 <= i < |ops| ==> Outcome(ops[i], fetch) == Ok(r.value[i])
    ensures r.Err? ==>
      exists i :: 0 <= i < |ops| && Outcome(ops[i], fetch) == Err(r.error)
        && forall k :: 0 <= k < i ==> Outcome(ops[k], fetch).Ok?
  {
    var result: seq<OutputRecord> := [];
    for i := 0 to |ops|
      invariant |result| == i
      invariant forall k :: 0 <= k < i ==> Outcome(ops[k], fetch) == Ok(result[k])
    {
      var record := ProcessOperator(ops[i], fetch(ops[i].url));
      if record.Err? {
        return Err(record.error);
      }
      result := result + [record.value];
    }
    r := Ok(result);
  }

  /** The whole transformation: list the cards, then process every operator. */
  method Run(cards: seq<Card>, fetch: string -> Option<Content>) returns (r: Result<seq<OutputRecord>, ScrapeError>)
    ensures r.Ok? <==> forall i :: 0 <= i < |cards| ==> Outcome(Summarize(cards[i]), fetch).Ok?
    ensures r.Ok? ==> |r.value| == |cards|
    ensures r.Ok? ==> forall i :: 0 <= i < |cards| ==>
      && Outcome(Summarize(cards[i]), fetch) == Ok(r.value[i])
      && r.value[i].info.name == Slug(DetailUrl(cards[i].href))
      && r.value[i].info.prettyName == cards[i].name
      && r.value[i].info.url == DetailUrl(cards[i].href)
    ensures r.Err? ==>
      exists i :: 0 <= i < |cards| && Outcome(Summarize(cards[i]), fetch) == Err(r.error)
        && forall k :: 0 <= k < i ==> Outcome(Summarize(cards[k]), fetch).Ok?
  {
    var ops := ListOperators(cards);
    r := ProcessOperators(ops, fetch);
    if r.Ok? {
      forall i | 0 <= i < |cards|
        ensures r.value[i].info.name == Slug(DetailUrl(cards[i].href))
        ensures r.value[i].info.prettyName == cards[i].name
        ensures r.value[i].info.url == DetailUrl(cards[i].href)
      {
        ProcessOutcome(ops[i], fetch(ops[i].url));
      }
    }
  }
}
