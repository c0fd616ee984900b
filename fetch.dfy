/** The retry bookkeeping of `PokemonTCGTracker.fetch_page`. The HTTP request
    itself is not modelled: `network(url, k)` is what the k-th request for
    `url` produced. */
module Fetch {
  import opened Wrappers

  /** One request: either a response whose status passed `raise_for_status`,
      carrying its body, or a `RequestException` (connection error, timeout,
      error status). */
  datatype Attempt = Delivered(body: string) | Failed

  const MAX_RETRIES: nat := 3

  /** `2 ** n`. */
  function Pow2(n: nat): nat {
    if n == 0 then 1 else 2 * Pow2(n - 1)
  }

  /** The body of the first delivered attempt among attempts `from`,
      `from + 1`, ..., `MAX_RETRIES - 1`, if there is one. */
  function Fetched(network: (string, nat) -> Attempt, url: string, from: nat): (html: Option<string>)
    ensures html.None? <==> forall k :: from <= k < MAX_RETRIES ==> network(url, k).Failed?
    ensures html.Some? ==> exists k :: from <= k < MAX_RETRIES && network(url, k) == Delivered(html.value)
    decreases MAX_RETRIES - from
  {
    if from >= MAX_RETRIES then None
    else match network(url, from)
      case Delivered(b) => Some(b)
      case Failed => Fetched(network, url, from + 1)
  }

  /** `fetch_page(url)`: at most `MAX_RETRIES` requests; after failed request
      `k` (other than the last) it waits `2 ** k` seconds; the waits are
      returned instead of slept. */
  method FetchPage(network: (string, nat) -> Attempt, url: string)
    returns (html: Option<string>, waits: seq<nat>)
    ensures html == Fetched(network, url, 0)
    ensures |waits| < MAX_RETRIES
    ensures forall k :: 0 <= k < |waits| ==> waits[k] == Pow2(k) && network(url, k).Failed?
    ensures html.Some? ==> network(url, |waits|) == Delivered(html.value)
    ensures html.None? ==> |waits| == MAX_RETRIES - 1 && network(url, MAX_RETRIES - 1).Failed?
  {
    html, waits := None, [];
    for attempt := 0 to MAX_RETRIES
      invariant |waits| == attempt < MAX_RETRIES
      invariant forall k :: 0 <= k < attempt ==> waits[k] == Pow2(k) && network(url, k).Failed?
      invariant Fetched(network, url, attempt) == Fetched(network, url, 0)
    {
      match network(url, attempt)
      case Delivered(body) =>
        return Some(body), waits;
      case Failed =>
        if attempt < MAX_RETRIES - 1 {
          waits := waits + [Pow2(attempt)];
        } else {
          return None, waits;
        }
    }
  }

  /** Nothing is fetched exactly when all three requests fail. */
  lemma FetchedNoneIff(network: (string, nat) -> Attempt, url: string)
    ensures Fetched(network, url, 0).None? <==> forall k :: 0 <= k < MAX_RETRIES ==> network(url, k).Failed?
  {
    assert Fetched(network, url, 0) == Fetched(network, url, 1) || network(url, 0).Delivered?;
  }

  /** A fetched page is the body of the first request that was delivered. */
  lemma FetchedIsFirstDelivered(network: (string, nat) -> Attempt, url: string)
    requires Fetched(network, url, 0).Some?
    ensures exists k :: 0 <= k < MAX_RETRIES
                        && network(url, k) == Delivered(Fetched(network, url, 0).value)
                        && forall j :: 0 <= j < k ==> network(url, j).Failed?
  {
    if network(url, 0).Delivered? {
      assert network(url, 0) == Delivered(Fetched(network, url, 0).value);
    } else if network(url, 1).Delivered? {
      assert network(url, 1) == Delivered(Fetched(network, url, 0).value);
    } else {
      assert network(url, 2) == Delivered(Fetched(network, url, 0).value);
    }
  }

  /** When request `k` is delivered after earlier failures, the fetch
      returns its body. */
  lemma {:induction false} FetchedFirst(network: (string, nat) -> Attempt, url: string, k: nat)
    requires k < MAX_RETRIES && network(url, k).Delivered?
    requires forall j :: 0 <= j < k ==> network(url, j).Failed?
    ensures Fetched(network, url, 0) == Some(network(url, k).body)
  {
    if k > 0 {
      assert network(url, 0).Failed?;
      if k > 1 {
        assert network(url, 1).Failed?;
      }
    }
  }
}
