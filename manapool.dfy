/** The marketplace client: the bounded retry loop around one HTTP request, the
    offset/limit pagination of the unfulfilled-orders listing, and the error mapping
    of a single-order fetch.

    The network is not modelled: what each attempt of a request produces (a raised
    transport exception with its message, or an HTTP status with a body) is an
    input sequence, and sleeping is reported as the list of delays, in milliseconds,
    that the loop would sleep. */
module ManaPool {
  import opened Common

  /** is_configured: both credentials are present and non-empty. */
  predicate IsConfigured(email: Option<string>, accessToken: Option<string>) {
    Truthy(email) && Truthy(accessToken)
  }

  lemma IsConfiguredCases(email: Option<string>, accessToken: Option<string>)
    ensures IsConfigured(email, accessToken) ==> email.Some? && accessToken.Some?
    ensures !IsConfigured(None, accessToken) && !IsConfigured(email, None)
    ensures !IsConfigured(Some(""), accessToken) && !IsConfigured(email, Some(""))
    ensures email.Some? && email.value != "" && accessToken.Some? && accessToken.value != ""
            ==> IsConfigured(email, accessToken)
  {
  }

  /** MAX_RETRIES when MANAPOOL_MAX_RETRIES is unset. */
  const DefaultMaxRetries: int := 3

  /** Statuses that make the loop sleep and try again. */
  const RetryableStatuses: set<int> := {429, 500, 502, 503, 504}

  const RequestFailedMessage: string := "ManaPool request failed"

  /** What one attempt produced. */
  datatype Attempt<B> = Raised(message: string) | Http(status: int, body: B)

  /** What _request returns: (resp, None) or (None, err). */
  datatype Reply<B> = Responded(status: int, body: B) | Failed(error: string)

  function Pow2(k: nat): (r: nat)
    ensures r >= 1
  {
    if k == 0 then 1 else 2 * Pow2(k - 1)
  }

  /** The sleep after failed attempt number k: 0.5 * 2**k seconds, in milliseconds. */
  function BackoffMs(k: nat): nat {
    500 * Pow2(k)
  }

  /** The delays are 0.5 s, 1 s and 2 s for the first three attempts, and each is
      twice the one before. */
  lemma BackoffSchedule(k: nat)
    ensures BackoffMs(0) == 500 && BackoffMs(1) == 1000 && BackoffMs(2) == 2000
    ensures BackoffMs(k + 1) == 2 * BackoffMs(k)
  {
  }

  /** The number of attempts `range(max_retries)` allows. */
  function Budget(maxRetries: int): nat {
    if maxRetries > 0 then maxRetries else 0
  }

  /** An attempt that ends the loop: a response with a status that is not retryable,
      whether or not it is a success. */
  predicate Answers<B>(a: Attempt<B>) {
    a.Http? && a.status !in RetryableStatuses
  }

  function FirstAnswerFrom<B>(attempts: seq<Attempt<B>>, i: nat): (r: Option<nat>)
    requires i <= |attempts|
    ensures r.Some? ==> i <= r.value < |attempts| && Answers(attempts[r.value])
    ensures r.Some? ==> forall j :: i <= j < r.value ==> !Answers(attempts[j])
    ensures r.None? ==> forall j :: i <= j < |attempts| ==> !Answers(attempts[j])
    decreases |attempts| - i
  {
    if i == |attempts| then None
    else if Answers(attempts[i]) then Some(i)
    else FirstAnswerFrom(attempts, i + 1)
  }

  /** The index of the first attempt that answers, if any. */
  function FirstAnswer<B>(attempts: seq<Attempt<B>>): (r: Option<nat>)
    ensures r.Some? ==> r.value < |attempts| && Answers(attempts[r.value])
    ensures r.Some? ==> forall j :: 0 <= j < r.value ==> !Answers(attempts[j])
    ensures r.None? ==> forall j :: 0 <= j < |attempts| ==> !Answers(attempts[j])
  {
    FirstAnswerFrom(attempts, 0)
  }

  /** The message of the last attempt that raised, if any did. */
  function LastRaised<B>(attempts: seq<Attempt<B>>): (r: Option<string>)
    ensures r.Some? ==> exists j :: 0 <= j < |attempts| && attempts[j] == Raised(r.value)
                         && forall k :: j < k < |attempts| ==> !attempts[k].Raised?
    ensures r.None? ==> forall j :: 0 <= j < |attempts| ==> !attempts[j].Raised?
  {
    if attempts == [] then None
    else
      var n := |attempts| - 1;
      if attempts[n].Raised? then Some(attempts[n].message)
      else
        var r := LastRaised(attempts[..n]);
        assert r.Some? ==> exists j :: 0 <= j < |attempts| && attempts[j] == Raised(r.value)
                            && forall k :: j < k < |attempts| ==> !attempts[k].Raised? by {
          if r.Some? {
            var j :| 0 <= j < n && attempts[..n][j] == Raised(r.value)
                     && forall k :: j < k < n ==> !attempts[..n][k].Raised?;
            assert attempts[j] == Raised(r.value);
            assert forall k :: j < k < |attempts| ==> !attempts[k].Raised? by {
              forall k | j < k < |attempts| ensures !attempts[k].Raised? {
                if k < n { assert attempts[..n][k] == attempts[k]; }
              }
            }
          }
        }
        assert r.None? ==> forall j :: 0 <= j < |attempts| ==> !attempts[j].Raised? by {
          if r.None? {
            forall j | 0 <= j < |attempts| ensures !attempts[j].Raised? {
              if j < n { assert attempts[..n][j] == attempts[j]; }
            }
          }
        }
        r
  }

  /** `last_err or 'ManaPool request failed'`. */
  function FailureMessage(lastErr: Option<string>): (r: string)
    ensures r != ""
  {
    if lastErr.Some? && lastErr.value != "" then lastErr.value else RequestFailedMessage
  }

  /** What _request returns, stated over the attempts it is allowed to make: the
      first answering response, else a failure carrying the last exception message. */
  function RequestOutcome<B>(maxRetries: int, attempts: seq<Attempt<B>>): Reply<B>
    requires Budget(maxRetries) <= |attempts|
  {
    var tried := attempts[..Budget(maxRetries)];
    match FirstAnswer(tried)
      case Some(i) => Responded(tried[i].status, tried[i].body)
      case None => Failed(FailureMessage(LastRaised(tried)))
  }

  /** A response is returned only when its status is not retryable; a failure
      always carries a non-empty message. */
  lemma RequestOutcomeFacts<B>(maxRetries: int, attempts: seq<Attempt<B>>)
    requires Budget(maxRetries) <= |attempts|
    ensures RequestOutcome(maxRetries, attempts).Responded? ==>
              RequestOutcome(maxRetries, attempts).status !in RetryableStatuses
    ensures RequestOutcome(maxRetries, attempts).Failed? ==> RequestOutcome(maxRetries, attempts).error != ""
    ensures maxRetries <= 0 ==> RequestOutcome(maxRetries, attempts) == Failed(RequestFailedMessage)
  {
    var tried := attempts[..Budget(maxRetries)];
    if maxRetries <= 0 {
      assert tried == [];
    }
  }

  lemma FirstAnswerIs<B>(a: seq<Attempt<B>>, i: nat)
    requires i < |a| && Answers(a[i]) && forall j :: 0 <= j < i ==> !Answers(a[j])
    ensures FirstAnswer(a) == Some(i)
  {
  }

  lemma NoAnswerPrefix<B>(a: seq<Attempt<B>>, i: nat)
    requires i < |a| && FirstAnswer(a[..i]).None? && !Answers(a[i])
    ensures FirstAnswer(a[..i + 1]).None?
  {
    forall j | 0 <= j < i + 1 ensures !Answers(a[j]) {
      if j < i { assert a[..i][j] == a[j]; }
    }
    assert forall j :: 0 <= j < i + 1 ==> a[..i + 1][j] == a[j];
  }

  lemma LastRaisedStep<B>(a: seq<Attempt<B>>, i: nat)
    requires i < |a|
    ensures LastRaised(a[..i + 1]) == if a[i].Raised? then Some(a[i].message) else LastRaised(a[..i])
  {
    assert a[..i + 1][..i] == a[..i];
  }

  /** _request: at most Budget(maxRetries) attempts; the reply is RequestOutcome;
      one backoff sleep follows every attempt that did not answer. */
  method Request<B>(maxRetries: int, attempts: seq<Attempt<B>>) returns (reply: Reply<B>, sleeps: seq<nat>)
    requires Budget(maxRetries) <= |attempts|
    ensures reply == RequestOutcome(maxRetries, attempts)
    ensures forall j :: 0 <= j < |sleeps| ==> sleeps[j] == BackoffMs(j)
    ensures reply.Responded? ==> FirstAnswer(attempts[..Budget(maxRetries)]) == Some(|sleeps|)
    ensures reply.Failed? ==> |sleeps| == Budget(maxRetries)
  {
    var tried := attempts[..Budget(maxRetries)];
    var lastErr: Option<string> := None;
    sleeps := [];
    var attempt := 0;
    while attempt < maxRetries
      invariant 0 <= attempt <= Budget(maxRetries)
      invariant |sleeps| == attempt
      invariant forall j :: 0 <= j < |sleeps| ==> sleeps[j] == BackoffMs(j)
      invariant FirstAnswer(tried[..attempt]).None?
      invariant lastErr == LastRaised(tried[..attempt])
    {
      assert tried[attempt] == attempts[attempt];
      LastRaisedStep(tried, attempt);
      match attempts[attempt] {
        case Raised(message) =>
          lastErr := Some(message);
        case Http(status, body) =>
          if status !in RetryableStatuses {
            forall j | 0 <= j < attempt ensures !Answers(tried[j]) {
              assert tried[..attempt][j] == tried[j];
            }
            FirstAnswerIs(tried, attempt);
            reply := Responded(status, body);
            return;
          }
      }
      NoAnswerPrefix(tried, attempt);
      sleeps := sleeps + [BackoffMs(attempt)];
      attempt := attempt + 1;
    }
    assert tried[..attempt] == tried;
    reply := Failed(FailureMessage(lastErr));
  }

  /** With the default three retries, two 503 responses and then a 200 give the 200
      response, after sleeping 0.5 s and 1 s. */
  lemma RetryExample<B>(busy: B, page: B)
    ensures RequestOutcome(DefaultMaxRetries, [Http(503, busy), Http(503, busy), Http(200, page)])
         == Responded(200, page)
  {
    var a := [Http(503, busy), Http(503, busy), Http(200, page)];
    assert a[..Budget(DefaultMaxRetries)] == a;
    FirstAnswerIs(a, 2);
  }

  /** Three transport failures give the last message; empty messages fall back. */
  lemma FailureExample<B>(a: seq<Attempt<B>>, b: seq<Attempt<B>>, none: B)
    requires a == [Raised("reset"), Raised("timeout"), Http(502, none)]
    requires b == [Raised("reset"), Http(429, none), Raised("")]
    ensures RequestOutcome(DefaultMaxRetries, a) == Failed("timeout")
    ensures RequestOutcome(DefaultMaxRetries, b) == Failed(RequestFailedMessage)
  {
    assert a[..3] == a && b[..3] == b;
    assert a[..3][..2] == [Raised("reset"), Raised("timeout")];
    assert LastRaised(a[..3]) == Some("timeout");
    assert LastRaised(b[..3]) == Some("");
  }

  // ---------------------------------------------------------------------------
  // Pagination

  /** What the listing returns: (orders, None) or (None, err). */
  datatype Listing<O> = Listed(orders: seq<O>) | ListError(message: string)

  /** The `orders` array of a page body; None when the body has no `orders` key. */
  function PageOrders<O>(body: Option<seq<O>>): seq<O> {
    if body.Some? then body.value else []
  }

  /** The error for a response that is not 200: the prefix, then the status
      written as Python's str writes it. */
  function StatusError(status: int): (r: string)
    ensures StartsWith(r, "ManaPool error: ")
    ensures IsDecimalOf(r[|"ManaPool error: "|..], status)
  {
    var r := "ManaPool error: " + IntToString(status);
    assert r[|"ManaPool error: "|..] == IntToString(status);
    r
  }

  /** The text of the 404 error. */
  lemma StatusError404()
    ensures StatusError(404) == "ManaPool error: 404"
  {
    Digits404();
    DecimalUnique(IntToString(404), "404", 404);
  }

  lemma Digits404()
    ensures IsDecimalOf("404", 404)
  {
    var digits := "404";
    assert digits[..2] == "40" && "40"[..1] == "4" && "4"[..0] == [];
    assert DigitValue('4') == 4 && DigitValue('0') == 0;
  }

  /** A page after which the loop requests nothing more: an error, a status other
      than 200, or a page that is empty or shorter than the limit. */
  predicate Stops<O>(reply: Reply<Option<seq<O>>>, limit: int) {
    reply.Failed? || reply.status != 200 || PageOrders(reply.body) == [] || |PageOrders(reply.body)| < limit
  }

  /** The replies to the successive page requests, which end with one at which the
      listing stops. */
  predicate Terminated<O>(replies: seq<Reply<Option<seq<O>>>>, limit: int) {
    replies != [] && Stops(replies[|replies| - 1], limit)
  }

  /** What the page that stops the listing returns: its error, the status error,
      or its orders. */
  function LastPage<O>(reply: Reply<Option<seq<O>>>): Listing<O> {
    match reply
      case Failed(e) => ListError(e)
      case Responded(status, body) => if status != 200 then ListError(StatusError(status)) else Listed(PageOrders(body))
  }

  /** `orders` accumulated so far, followed by what the rest of the listing returns;
      an error discards what was accumulated. */
  function Prepend<O>(orders: seq<O>, rest: Listing<O>): Listing<O> {
    match rest
      case Listed(more) => Listed(orders + more)
      case ListError(e) => ListError(e)
  }

  /** list_unfulfilled_orders from page k on, over the replies to the page requests. */
  function ListingFrom<O>(replies: seq<Reply<Option<seq<O>>>>, limit: int, k: nat): Listing<O>
    requires Terminated(replies, limit) && k < |replies|
    decreases |replies| - k
  {
    if Stops(replies[k], limit) || k + 1 == |replies| then LastPage(replies[k])
    else Prepend(PageOrders(replies[k].body), ListingFrom(replies, limit, k + 1))
  }

  /** Every page request is given enough attempts. */
  predicate Attemptable<B>(maxRetries: int, pages: seq<seq<Attempt<B>>>) {
    forall k :: 0 <= k < |pages| ==> Budget(maxRetries) <= |pages[k]|
  }

  /** The reply to each page request. */
  function PageReplies<B>(maxRetries: int, pages: seq<seq<Attempt<B>>>): (r: seq<Reply<B>>)
    requires Attemptable(maxRetries, pages)
    ensures |r| == |pages|
  {
    seq(|pages|, k requires 0 <= k < |pages| => RequestOutcome(maxRetries, pages[k]))
  }

  /** list_unfulfilled_orders: requests offsets 0, limit, 2*limit, ... (one page
      each, attempts for page k being pages[k]) up to and including the first page
      that stops the listing, and no further; the result is ListingFrom over the
      page replies. The environment is assumed to end the listing at its last page
      (the loop runs forever otherwise). */
  method ListUnfulfilledOrders<O>(maxRetries: int, limit: int, pages: seq<seq<Attempt<Option<seq<O>>>>>)
    returns (result: Listing<O>, offsets: seq<int>)
    requires Attemptable(maxRetries, pages) && Terminated(PageReplies(maxRetries, pages), limit)
    ensures result == ListingFrom(PageReplies(maxRetries, pages), limit, 0)
    ensures |offsets| == StopIndex(PageReplies(maxRetries, pages), limit, 0) + 1
    ensures 1 <= |offsets| <= |pages|
    ensures offsets == Offsets(|offsets|, limit)
  {
    ghost var replies := PageReplies(maxRetries, pages);
    assert |replies| == |pages| && Terminated(replies, limit);
    var orders: seq<O> := [];
    var offset := 0;
    var k := 0;
    offsets := [];
    while true
      invariant 0 <= k <= StopIndex(replies, limit, 0)
      invariant offset == k * limit && offsets == Offsets(k, limit)
      invariant orders == OrdersBetween(replies, 0, k)
      decreases |pages| - k
    {
      offsets := offsets + [offset];
      var reply := RequestPage(maxRetries, pages, k);
      if reply.Failed? || reply.status != 200 || PageOrders(reply.body) == [] || |PageOrders(reply.body)| < limit {
        ListingEnds(replies, limit, k);
        OffsetsStep(k, limit);
        return Prepend(orders, LastPage(reply)), offsets;
      }
      var batch := PageOrders(reply.body);
      PageAdvances(replies, limit, k, orders);
      orders := orders + batch;
      OffsetsStep(k, limit);
      offset := offset + limit;
      k := k + 1;
    }
  }

  /** The offsets of the first n page requests: 0, limit, 2 * limit, ... */
  function Offsets(n: nat, limit: int): seq<int> {
    seq(n, j => j * limit)
  }

  lemma OffsetsStep(k: nat, limit: int)
    ensures Offsets(k + 1, limit) == Offsets(k, limit) + [k * limit]
    ensures k * limit + limit == (k + 1) * limit
  {
    assert Offsets(k + 1, limit)[k] == k * limit;
  }

  /** The request for page k. */
  method RequestPage<B>(maxRetries: int, pages: seq<seq<Attempt<B>>>, k: nat) returns (reply: Reply<B>)
    requires Attemptable(maxRetries, pages) && k < |pages|
    ensures reply == PageReplies(maxRetries, pages)[k]
  {
    var sleeps;
    reply, sleeps := Request(maxRetries, pages[k]);
  }

  /** The first page that stops the listing decides it. */
  lemma ListingEnds<O>(replies: seq<Reply<Option<seq<O>>>>, limit: int, k: nat)
    requires Terminated(replies, limit) && k <= StopIndex(replies, limit, 0) && Stops(replies[k], limit)
    ensures ListingFrom(replies, limit, 0) == Prepend(OrdersBetween(replies, 0, k), LastPage(replies[k]))
  {
    ListingUpToStop(replies, limit, 0);
  }

  /** A full page before the stopping page adds its orders and moves on. */
  lemma PageAdvances<O>(replies: seq<Reply<Option<seq<O>>>>, limit: int, k: nat, orders: seq<O>)
    requires Terminated(replies, limit) && k <= StopIndex(replies, limit, 0) && !Stops(replies[k], limit)
    requires orders == OrdersBetween(replies, 0, k)
    ensures k + 1 <= StopIndex(replies, limit, 0)
    ensures orders + PageOrders(replies[k].body) == OrdersBetween(replies, 0, k + 1)
  {
    OrdersBetweenSnoc(replies, 0, k);
  }

  /** The orders of one more page. */
  lemma {:induction false} OrdersBetweenSnoc<O>(replies: seq<Reply<Option<seq<O>>>>, k: nat, s: nat)
    requires k <= s < |replies|
    ensures OrdersBetween(replies, k, s + 1)
            == OrdersBetween(replies, k, s) + (if replies[s].Responded? then PageOrders(replies[s].body) else [])
    decreases s - k
  {
    if k < s {
      OrdersBetweenSnoc(replies, k + 1, s);
      var head := if replies[k].Responded? then PageOrders(replies[k].body) else [];
      var last := if replies[s].Responded? then PageOrders(replies[s].body) else [];
      assert head + (OrdersBetween(replies, k + 1, s) + last) == (head + OrdersBetween(replies, k + 1, s)) + last;
    }
  }

  lemma PrependAssoc<O>(a: seq<O>, b: seq<O>, rest: Listing<O>)
    ensures Prepend(a, Prepend(b, rest)) == Prepend(a + b, rest)
  {
    if rest.Listed? {
      assert a + (b + rest.orders) == (a + b) + rest.orders;
    }
  }

  /** One step of the listing: page k either ends it, with its error, its status
      error or its orders, or is full and is followed by the listing from page k + 1. */
  lemma ListingStep<O>(replies: seq<Reply<Option<seq<O>>>>, limit: int, k: nat)
    requires Terminated(replies, limit) && k < |replies|
    ensures replies[k].Failed? ==> ListingFrom(replies, limit, k) == ListError(replies[k].error)
    ensures replies[k].Responded? && replies[k].status != 200 ==>
              ListingFrom(replies, limit, k) == ListError(StatusError(replies[k].status))
    ensures Stops(replies[k], limit) && replies[k].Responded? && replies[k].status == 200 ==>
              ListingFrom(replies, limit, k) == Listed(PageOrders(replies[k].body))
    ensures !Stops(replies[k], limit) ==>
              k + 1 < |replies| &&
              ListingFrom(replies, limit, k) == Prepend(PageOrders(replies[k].body), ListingFrom(replies, limit, k + 1))
  {
  }

  /** The index of the first page at or after k at which the listing stops. */
  function StopIndex<O>(replies: seq<Reply<Option<seq<O>>>>, limit: int, k: nat): (s: nat)
    requires Terminated(replies, limit) && k < |replies|
    ensures k <= s < |replies| && Stops(replies[s], limit)
    ensures forall j :: k <= j < s ==> !Stops(replies[j], limit)
    decreases |replies| - k
  {
    if Stops(replies[k], limit) then k else StopIndex(replies, limit, k + 1)
  }

  /** The orders of pages k .. s-1, in request order. */
  function OrdersBetween<O>(replies: seq<Reply<Option<seq<O>>>>, k: nat, s: nat): seq<O>
    requires k <= s <= |replies|
    decreases s - k
  {
    if k == s then []
    else (if replies[k].Responded? then PageOrders(replies[k].body) else []) + OrdersBetween(replies, k + 1, s)
  }

  /** The listing, stated without recursion: it is decided by the first page that
      stops it. If that page failed, its error is returned; if its status is not 200,
      "ManaPool error: <status>"; otherwise the full pages before it and that page,
      concatenated in request order. */
  lemma ListingMeaning<O>(replies: seq<Reply<Option<seq<O>>>>, limit: int, k: nat)
    requires Terminated(replies, limit) && k < |replies|
    ensures var s := StopIndex(replies, limit, k);
            ListingFrom(replies, limit, k)
              == if replies[s].Failed? then ListError(replies[s].error)
                 else if replies[s].status != 200 then ListError(StatusError(replies[s].status))
                 else Listed(OrdersBetween(replies, k, s) + PageOrders(replies[s].body))
  {
    ListingUpToStop(replies, limit, k);
  }

  /** The listing from page k is the orders of the full pages before the stopping
      page, followed by what that page returns. */
  lemma {:induction false} ListingUpToStop<O>(replies: seq<Reply<Option<seq<O>>>>, limit: int, k: nat)
    requires Terminated(replies, limit) && k < |replies|
    ensures ListingFrom(replies, limit, k)
            == Prepend(OrdersBetween(replies, k, StopIndex(replies, limit, k)), LastPage(replies[StopIndex(replies, limit, k)]))
    decreases |replies| - k
  {
    var s := StopIndex(replies, limit, k);
    if s == k {
      assert OrdersBetween(replies, k, s) == [];
      PrependNothing(LastPage(replies[s]));
    } else {
      ListingStep(replies, limit, k);
      ListingUpToStop(replies, limit, k + 1);
      var batch := PageOrders(replies[k].body);
      var rest := OrdersBetween(replies, k + 1, s);
      assert OrdersBetween(replies, k, s) == batch + rest;
      PrependAssoc(batch, rest, LastPage(replies[s]));
    }
  }

  lemma PrependNothing<O>(rest: Listing<O>)
    ensures Prepend([], rest) == rest
  {
    if rest.Listed? {
      assert [] + rest.orders == rest.orders;
    }
  }

  /** Every page before the one that stops the listing answered 200 with at
      least limit orders. */
  lemma EachPageBeforeFull<O>(replies: seq<Reply<Option<seq<O>>>>, limit: int, k: nat)
    requires Terminated(replies, limit) && k < |replies|
    ensures forall j :: k <= j < StopIndex(replies, limit, k) ==>
              replies[j].Responded? && replies[j].status == 200 && |PageOrders(replies[j].body)| >= limit
  {
  }

  /** So the pages before the stopping one hold at least (s - k) * limit orders
      together. */
  lemma {:induction false} FullPagesBefore<O>(replies: seq<Reply<Option<seq<O>>>>, limit: int, k: nat)
    requires Terminated(replies, limit) && k < |replies|
    ensures |OrdersBetween(replies, k, StopIndex(replies, limit, k))| >= (StopIndex(replies, limit, k) - k) * limit
    decreases |replies| - k
  {
    var s := StopIndex(replies, limit, k);
    if s != k {
      FullPagesBefore(replies, limit, k + 1);
      assert StopIndex(replies, limit, k + 1) == s;
    }
  }

  /** A failed listing always carries a message, so the caller's `if err:` test
      sees every failure. */
  lemma ListingErrorNonEmpty<O>(maxRetries: int, limit: int, pages: seq<seq<Attempt<Option<seq<O>>>>>)
    requires Attemptable(maxRetries, pages) && Terminated(PageReplies(maxRetries, pages), limit)
    ensures ListingFrom(PageReplies(maxRetries, pages), limit, 0).ListError? ==>
              ListingFrom(PageReplies(maxRetries, pages), limit, 0).message != ""
  {
    var replies := PageReplies(maxRetries, pages);
    ListingMeaning(replies, limit, 0);
    var s := StopIndex(replies, limit, 0);
    RequestOutcomeFacts(maxRetries, pages[s]);
  }

  /** A listing whose single page needed two retries: 503, 503, then a 200 response
      with fewer orders than the limit yields exactly that page and no error. */
  lemma ListingRetryExample<O>(busy: Option<seq<O>>, page: seq<O>)
    requires |page| < 100
    ensures var pages := [[Http(503, busy), Http(503, busy), Http(200, Some(page))]];
            Attemptable(DefaultMaxRetries, pages)
            && Terminated(PageReplies(DefaultMaxRetries, pages), 100)
            && ListingFrom(PageReplies(DefaultMaxRetries, pages), 100, 0) == Listed(page)
  {
    var pages := [[Http(503, busy), Http(503, busy), Http(200, Some(page))]];
    RetryExample(busy, Some(page));
    assert PageReplies(DefaultMaxRetries, pages) == [Responded(200, Some(page))];
  }

  /** A full first page followed by an error response loses the first page. */
  lemma ListingErrorExample<O>(a: O, b: O)
    ensures var replies := [Responded(200, Some([a, b])), Responded(404, None)];
            Terminated(replies, 2) && ListingFrom(replies, 2, 0) == ListError("ManaPool error: 404")
  {
    StatusError404();
  }

  /** A full first page, then a short one: both, in order. */
  lemma ListingTwoPagesExample<O>(a: O, b: O, c: O)
    ensures var replies := [Responded(200, Some([a, b])), Responded(200, Some([c]))];
            Terminated(replies, 2) && ListingFrom(replies, 2, 0) == Listed([a, b, c])
  {
  }

  // ---------------------------------------------------------------------------
  // Single order

  /** What fetch_order returns: (body, None) or (None, err). */
  datatype Fetch<B> = FetchedBody(body: B) | FetchError(error: string)

  /** fetch_order's mapping of a reply. */
  function OrderReply<B>(reply: Reply<B>): (r: Fetch<B>)
    ensures reply.Failed? ==> r == FetchError(reply.error)
    ensures reply.Responded? && reply.status != 200 ==> r == FetchError(StatusError(reply.status))
    ensures reply.Responded? && reply.status == 200 ==> r == FetchedBody(reply.body)
  {
    match reply
      case Failed(e) => FetchError(e)
      case Responded(status, body) => if status != 200 then FetchError(StatusError(status)) else FetchedBody(body)
  }

  /** fetch_order. */
  method FetchOrder<B>(maxRetries: int, attempts: seq<Attempt<B>>) returns (r: Fetch<B>)
    requires Budget(maxRetries) <= |attempts|
    ensures r == OrderReply(RequestOutcome(maxRetries, attempts))
    ensures r.FetchError? ==> r.error != ""
  {
    var reply, _ := Request(maxRetries, attempts);
    RequestOutcomeFacts(maxRetries, attempts);
    r := OrderReply(reply);
  }
}
