/**
 * The bounded result history: the process-wide `responses` slice of the webhook
 * handler, appended to at the tail and trimmed from the front to at most
 * `maxResponses` records, and copied out whole for the results endpoint.
 */
module Store {

  /** One processing result (`ProcessingResponse`); the timestamp is a clock reading. */
  datatype Record = Record(id: string, text: string, timestamp: int, status: string)

  /**
   * What `responses[len(responses)-maxResponses:]` keeps when the slice is too long:
   * the newest `min(n, |s|)` elements, oldest first.
   */
  function KeepNewest(s: seq<Record>, n: nat): (kept: seq<Record>)
    ensures |kept| == if |s| <= n then |s| else n
    ensures kept == s[|s| - |kept|..]
  {
    if |s| > n then s[|s| - n..] else s
  }

  /** The history after appending each of `rs` in turn, trimming after every append. */
  function AppendAll(s: seq<Record>, rs: seq<Record>, n: nat): seq<Record> {
    if rs == [] then s
    else KeepNewest(AppendAll(s, rs[..|rs| - 1], n) + [rs[|rs| - 1]], n)
  }

  /** Trimming after each append keeps the same records as appending everything and trimming once. */
  lemma {:induction false} AppendAllKeepsNewest(s: seq<Record>, rs: seq<Record>, n: nat)
    requires |s| <= n
    ensures AppendAll(s, rs, n) == KeepNewest(s + rs, n)
  {
    if rs == [] {
      assert s + rs == s;
    } else {
      var init, last := rs[..|rs| - 1], rs[|rs| - 1];
      AppendAllKeepsNewest(s, init, n);
      assert s + rs == (s + init) + [last];
      TrimThenAppend(s + init, last, n);
    }
  }

  /** Appending to a trimmed history and trimming again is trimming once. */
  lemma TrimThenAppend(t: seq<Record>, x: Record, n: nat)
    ensures KeepNewest(KeepNewest(t, n) + [x], n) == KeepNewest(t + [x], n)
  {
    if |t| > n && n > 0 {
      assert (t[|t| - n..] + [x])[1..] == (t + [x])[|t| + 1 - n..];
    }
  }

  /**
   * From an empty history, any sequence of appends leaves exactly the newest
   * `min(n, |rs|)` records in arrival order.
   */
  lemma AppendsFromEmpty(rs: seq<Record>, n: nat)
    ensures AppendAll([], rs, n) == KeepNewest(rs, n)
    ensures |AppendAll([], rs, n)| <= n
  {
    AppendAllKeepsNewest([], rs, n);
    assert [] + rs == rs;
  }

  /** With capacity 2, appending A, B and C leaves [B, C]. */
  lemma CapacityTwoExample(a: Record, b: Record, c: Record)
    ensures AppendAll([], [a, b, c], 2) == [b, c]
  {
    AppendsFromEmpty([a, b, c], 2);
  }

  /** The store: `responses` guarded by `responsesMutex`; each method is one critical section. */
  class ResultStore {
    var responses: seq<Record>
    const maxResponses: nat

    /** Every completed append leaves at most `maxResponses` records. */
    predicate Valid()
      reads this
    {
      |responses| <= maxResponses
    }

    /** The empty history of a starting process. */
    constructor (capacity: nat)
      ensures Valid() && responses == [] && maxResponses == capacity
    {
      responses := [];
      maxResponses := capacity;
    }

    /** `responses = append(responses, r)`, then drop from the front down to `maxResponses`. */
    method Append(r: Record)
      modifies this
      ensures Valid()
      ensures responses == KeepNewest(old(responses) + [r], maxResponses)
      ensures |old(responses)| + 1 <= maxResponses ==> responses == old(responses) + [r]
      ensures responses != [] && responses[|responses| - 1] == r <==> maxResponses > 0
    {
      responses := responses + [r];
      if |responses| > maxResponses {
        responses := responses[|responses| - maxResponses..];
      }
    }

    /**
     * `make([]ProcessingResponse, len(responses))` followed by `copy`: a fresh array with
     * the history, oldest first, that later appends cannot reach.
     */
    method Snapshot() returns (data: array<Record>)
      ensures fresh(data)
      ensures data[..] == responses
      ensures Valid() ==> data.Length <= maxResponses
    {
      data := new Record[|responses|];
      var i := 0;
      while i < |responses|
        invariant 0 <= i <= |responses| == data.Length
        invariant data[..i] == responses[..i]
      {
        data[i] := responses[i];
        i := i + 1;
      }
    }
  }
}
