/**
 * The webhook result normaliser: how `handleN8nWebhook` turns the body of a callback
 * from the automation system into the text and status of one processing result.
 *
 * Go ranges over the decoded map in an unspecified order, so the synthesised text is
 * stated for SOME enumeration `order` of the contributing keys; `LinesOrderIndependent`
 * shows that the multiset of lines does not depend on which one.
 */
module Webhook {
  import opened Optional
  import opened JsonValue

  /** Service keys that never contribute a line to a synthesised text. */
  const Excluded: set<string> := {"status", "webhookUrl", "executionMode", "timestamp", "id"}

  /** Stored in place of an empty result text ("data processed, but the result text is empty"). */
  const Placeholder: string := "Данные обработаны, но текст результата пуст"

  /** The status of a result whose payload names none. */
  const DefaultStatus: string := "completed"

  /** `data[key].(string)` succeeds and is not the empty string. */
  predicate NonEmptyString(data: Object, key: string) {
    HasString(data, key) && data[key].s != ""
  }

  /** The payload carries neither a usable `text` nor a usable `message`: the text is synthesised. */
  predicate Synthesises(m: Object) {
    !NonEmptyString(m, "text") && !NonEmptyString(m, "message")
  }

  /** Key `k` of `m` yields a line: it is not a service key and its value is not the empty string. */
  predicate Contributes(m: Object, k: string) {
    k in m && k !in Excluded && m[k] != JString("")
  }

  /** The keys that yield a line. */
  function ContributingKeys(m: Object): set<string> {
    set k | k in m && Contributes(m, k)
  }

  /** No key is listed twice. */
  predicate Distinct(order: seq<string>) {
    forall i, j :: 0 <= i < j < |order| ==> order[i] != order[j]
  }

  /** `order` lists every contributing key of `m` exactly once, and nothing else. */
  ghost predicate IsKeyOrder(order: seq<string>, m: Object) {
    && Distinct(order)
    && (forall i :: 0 <= i < |order| ==> Contributes(m, order[i]))
    && (forall k :: Contributes(m, k) ==> k in order)
  }

  /** Every key of `order` is a key of `m`. */
  predicate AllIn(order: seq<string>, m: Object) {
    forall i :: 0 <= i < |order| ==> order[i] in m
  }

  /** The text of one value in a synthesised line, following the handler's type switch. */
  function Render(v: Json, r: Renderer): string {
    match v
    case JString(s) => s
    case JNumber(x) => r.fixed2(x)
    case JBool(b) => if b then "true" else "false"
    case JObject(_) => r.marshal(v)
    case JArray(_) => r.marshal(v)
    case JNull => "<nil>"   // `%v` of a nil interface
  }

  /** The `"key: value"` line of one entry. */
  function Line(k: string, v: Json, r: Renderer): string {
    k + ": " + Render(v, r)
  }

  /** `f` applied to every element of `s`, in order. */
  function MapSeq<A, B>(s: seq<A>, f: A -> B): (t: seq<B>)
    ensures |t| == |s|
    ensures forall i :: 0 <= i < |s| ==> t[i] == f(s[i])
  {
    if s == [] then [] else MapSeq(s[..|s| - 1], f) + [f(s[|s| - 1])]
  }

  /** The line of key `k` of `m`, for the keys of `m`. */
  function LineOf(m: Object, r: Renderer): string -> string {
    k => if k in m then Line(k, m[k], r) else ""
  }

  /** The lines of the keys in `order`, in that order. */
  function Lines(order: seq<string>, m: Object, r: Renderer): (ls: seq<string>)
    requires AllIn(order, m)
    ensures |ls| == |order|
    ensures forall i :: 0 <= i < |order| ==> ls[i] == Line(order[i], m[order[i]], r)
  {
    MapSeq(order, LineOf(m, r))
  }

  /** `strings.Join(parts, "\n")`. */
  function Join(parts: seq<string>): (s: string)
    ensures parts == [] ==> s == ""
    ensures parts != [] ==> parts[0] <= s
  {
    if parts == [] then ""
    else if |parts| == 1 then parts[0]
    else Join(parts[..|parts| - 1]) + "\n" + parts[|parts| - 1]
  }

  /**
   * The text chosen before the empty-text fallback: a non-empty `text`, else a non-empty
   * `message`, else the joined lines (in the loop's key order); a body that does not decode
   * as a JSON object is taken verbatim.
   */
  function ChosenText(body: string, decoded: Option<Object>, order: seq<string>, r: Renderer): string
    requires decoded.Some? ==> AllIn(order, decoded.value)
  {
    match decoded
    case None => body
    case Some(m) =>
      if NonEmptyString(m, "text") then m["text"].s
      else if NonEmptyString(m, "message") then m["message"].s
      else Join(Lines(order, m, r))
  }

  /** The text that is stored: the chosen text, or the placeholder when that is empty. */
  function StoredText(chosen: string): (t: string)
    ensures t != ""
    ensures chosen != "" ==> t == chosen
    ensures chosen == "" ==> t == Placeholder
  {
    if chosen == "" then Placeholder else chosen
  }

  /** The payload's non-empty `status` string, else `"completed"`. */
  function StatusOf(decoded: Option<Object>): string {
    if decoded.Some? && NonEmptyString(decoded.value, "status") then decoded.value["status"].s
    else DefaultStatus
  }

  /** The key order a run of the normaliser may use: an enumeration when it synthesises, else none. */
  ghost predicate ValidOrder(decoded: Option<Object>, order: seq<string>) {
    match decoded
    case None => order == []
    case Some(m) => if Synthesises(m) then IsKeyOrder(order, m) else order == []
  }

  /**
   * One arm of the fallback loop's type switch: the `"key: value"` line of an entry, or
   * none for an empty string.
   */
  method FormatEntry(key: string, value: Json, r: Renderer) returns (line: Option<string>)
    ensures line.None? <==> value == JString("")
    ensures line.Some? ==> line.value == Line(key, value, r)
  {
    match value {
      case JString(s) => line := if s != "" then Some(key + ": " + s) else None;
      case JNumber(x) => line := Some(key + ": " + r.fixed2(x));
      case JBool(b) => line := Some(key + ": " + (if b then "true" else "false"));
      case JObject(_) => line := Some(key + ": " + r.marshal(value));
      case JArray(_) => line := Some(key + ": " + r.marshal(value));
      case JNull => line := Some(key + ": " + "<nil>");
    }
  }

  /**
   * The fallback loop's bookkeeping: `order` lists, without repeats, exactly the
   * contributing keys it has visited, and `remaining` holds the keys not yet visited.
   */
  ghost predicate Visited(order: seq<string>, remaining: set<string>, m: Object) {
    && remaining <= m.Keys
    && Distinct(order)
    && (forall i :: 0 <= i < |order| ==> Contributes(m, order[i]) && order[i] !in remaining)
    && (forall k :: Contributes(m, k) && k !in remaining ==> k in order)
  }

  /** Visiting a key that yields no line keeps the bookkeeping. */
  lemma VisitSkipped(order: seq<string>, remaining: set<string>, m: Object, key: string)
    requires Visited(order, remaining, m) && key in remaining && !Contributes(m, key)
    ensures Visited(order, remaining - {key}, m)
  {
  }

  /** Visiting a key that yields a line appends it to the order. */
  lemma VisitTaken(order: seq<string>, remaining: set<string>, m: Object, key: string)
    requires Visited(order, remaining, m) && key in remaining && Contributes(m, key)
    ensures Visited(order + [key], remaining - {key}, m)
  {
    var o := order + [key];
    forall k | Contributes(m, k) && k !in remaining - {key}
      ensures k in o
    {
      if k != key {
        var i :| 0 <= i < |order| && order[i] == k;
        assert o[i] == k;
      } else {
        assert o[|order|] == k;
      }
    }
  }

  /** Once every key has been visited, the order enumerates the contributing keys. */
  lemma VisitedAll(order: seq<string>, m: Object)
    requires Visited(order, {}, m)
    ensures IsKeyOrder(order, m) && AllIn(order, m)
  {
  }

  /**
   * The fallback loop of `handleN8nWebhook`: visits the keys of `m` in some order, skips
   * the service keys and empty strings, and collects one line per remaining key. `order`
   * is the order in which it collected them.
   */
  method SynthesiseLines(m: Object, r: Renderer) returns (parts: seq<string>, ghost order: seq<string>)
    ensures IsKeyOrder(order, m) && AllIn(order, m)
    ensures parts == Lines(order, m, r)
  {
    parts, order := [], [];
    var remaining := m.Keys;
    while remaining != {}
      invariant Visited(order, remaining, m)
      invariant AllIn(order, m) && parts == MapSeq(order, LineOf(m, r))
      decreases remaining
    {
      var key :| key in remaining;
      if key in Excluded {
        VisitSkipped(order, remaining, m, key);
        remaining := remaining - {key};
        continue;
      }
      var line := FormatEntry(key, m[key], r);
      if line.Some? {
        VisitTaken(order, remaining, m, key);
        assert LineOf(m, r)(key) == line.value;
        MapSeqSnoc(order, key, LineOf(m, r));
        parts := parts + [line.value];
        order := order + [key];
      } else {
        VisitSkipped(order, remaining, m, key);
      }
      remaining := remaining - {key};
    }
    VisitedAll(order, m);
  }

  /**
   * The body of `handleN8nWebhook` from the decode attempt to the placeholder check.
   * `decoded` is what `json.Unmarshal` made of `body` (None when it failed); `order` is the
   * order in which the map loop visited the contributing keys.
   */
  method NormalizeWebhook(body: string, decoded: Option<Object>, r: Renderer)
    returns (text: string, status: string, ghost order: seq<string>)
    ensures ValidOrder(decoded, order)
    ensures decoded.Some? ==> AllIn(order, decoded.value)
    ensures text == StoredText(ChosenText(body, decoded, order, r))
    ensures status == StatusOf(decoded)
    ensures text != ""
    ensures decoded.Some? && NonEmptyString(decoded.value, "text") ==> text == decoded.value["text"].s
    ensures decoded.Some? && !NonEmptyString(decoded.value, "text") && NonEmptyString(decoded.value, "message") ==>
              text == decoded.value["message"].s
    ensures decoded.None? && body != "" ==> text == body
    ensures decoded.None? ==> status == DefaultStatus
  {
    text, status, order := "", DefaultStatus, [];
    match decoded {
      case None =>
        text := body;
      case Some(m) =>
        if NonEmptyString(m, "text") {
          text := m["text"].s;
        } else if NonEmptyString(m, "message") {
          text := m["message"].s;
        } else {
          var parts;
          parts, order := SynthesiseLines(m, r);
          if |parts| > 0 {
            text := Join(parts);
          }
        }
        if NonEmptyString(m, "status") {
          status := m["status"].s;
        }
    }
    if text == "" {
      text := Placeholder;
    }
  }

  // ----- Properties of the synthesised text -----

  /** A list without repeats has as many elements as its set. */
  lemma {:induction false} DistinctCardinality(order: seq<string>)
    requires Distinct(order)
    ensures |set i | 0 <= i < |order| :: order[i]| == |order|
  {
    if order != [] {
      var init := order[..|order| - 1];
      var last := order[|order| - 1];
      DistinctCardinality(init);
      var s := set i | 0 <= i < |init| :: init[i];
      assert (set i | 0 <= i < |order| :: order[i]) == s + {last};
      assert last !in s;
    }
  }

  /**
   * In the fallback branch there is exactly one line per contributing key: each
   * contributing key has its line, every line belongs to a contributing key, and no
   * service key and no empty-string value ever yields one.
   */
  lemma FallbackOneLinePerKey(m: Object, order: seq<string>, r: Renderer)
    requires IsKeyOrder(order, m)
    ensures AllIn(order, m)
    ensures |Lines(order, m, r)| == |ContributingKeys(m)|
    ensures forall k :: Contributes(m, k) ==> Line(k, m[k], r) in Lines(order, m, r)
    ensures forall i :: 0 <= i < |order| ==>
              Lines(order, m, r)[i] == Line(order[i], m[order[i]], r)
              && order[i] !in Excluded && m[order[i]] != JString("")
  {
    DistinctCardinality(order);
    assert (set i | 0 <= i < |order| :: order[i]) == ContributingKeys(m);
    forall k | Contributes(m, k)
      ensures Line(k, m[k], r) in Lines(order, m, r)
    {
      var i :| 0 <= i < |order| && order[i] == k;
      assert Lines(order, m, r)[i] == Line(k, m[k], r);
    }
  }

  /** Mapping a concatenation maps each part. */
  lemma {:induction false} MapSeqAppend<A, B>(a: seq<A>, b: seq<A>, f: A -> B)
    ensures MapSeq(a + b, f) == MapSeq(a, f) + MapSeq(b, f)
  {
    var lhs, rhs := MapSeq(a + b, f), MapSeq(a, f) + MapSeq(b, f);
    forall i | 0 <= i < |lhs| ensures lhs[i] == rhs[i] {
      if i >= |a| { assert (a + b)[i] == b[i - |a|]; }
    }
  }

  /** Removing the element at `j` removes one occurrence of it. */
  lemma {:induction false} MultisetRemove<A>(s: seq<A>, j: nat)
    requires j < |s|
    ensures multiset(s[..j] + s[j + 1..]) == multiset(s) - multiset{s[j]}
  {
    assert s == s[..j] + [s[j]] + s[j + 1..];
  }

  /** Removing the element at `j` removes one occurrence of its image. */
  lemma {:induction false} MapSeqRemove<A, B>(s: seq<A>, j: nat, f: A -> B)
    requires j < |s|
    ensures multiset(MapSeq(s, f)) == multiset(MapSeq(s[..j] + s[j + 1..], f)) + multiset{f(s[j])}
  {
    var pre, post := s[..j], s[j + 1..];
    assert s == pre + ([s[j]] + post);
    MapSeqAppend(pre, [s[j]] + post, f);
    MapSeqAppend([s[j]], post, f);
    MapSeqAppend(pre, post, f);
    assert MapSeq([s[j]], f) == [f(s[j])];
  }

  /** Mapping a list extended by one element extends the image by that element's image. */
  lemma {:induction false} MapSeqSnoc<A, B>(s: seq<A>, x: A, f: A -> B)
    ensures MapSeq(s + [x], f) == MapSeq(s, f) + [f(x)]
  {
    assert (s + [x])[..|s|] == s;
  }

  /** Permuted inputs have permuted images. */
  lemma {:induction false} PermutedMap<A, B>(o1: seq<A>, o2: seq<A>, f: A -> B)
    requires multiset(o1) == multiset(o2)
    ensures multiset(MapSeq(o1, f)) == multiset(MapSeq(o2, f))
    decreases |o1|
  {
    if o1 == [] {
      assert |o2| == |multiset(o2)| == 0;
    } else {
      var n := |o1| - 1;
      var k := o1[n];
      var rest1 := o1[..n];
      assert o1 == rest1 + [k];
      assert multiset(rest1) == multiset(o1) - multiset{k};
      assert k in multiset(o2);
      var j :| 0 <= j < |o2| && o2[j] == k;
      MultisetRemove(o2, j);
      MapSeqRemove(o2, j, f);
      PermutedMap(rest1, o2[..j] + o2[j + 1..], f);
    }
  }

  /** In a list without repeats every element occurs once. */
  lemma {:induction false} DistinctMultiplicity(order: seq<string>, x: string)
    requires Distinct(order)
    ensures multiset(order)[x] == if x in order then 1 else 0
  {
    if order != [] {
      var init := order[..|order| - 1];
      assert order == init + [order[|order| - 1]];
      DistinctMultiplicity(init, x);
    }
  }

  /**
   * Whatever order the map loop visits the keys in, the synthesised text is made of the
   * same lines: only their order can differ between two runs.
   */
  lemma LinesOrderIndependent(m: Object, o1: seq<string>, o2: seq<string>, r: Renderer)
    requires IsKeyOrder(o1, m) && IsKeyOrder(o2, m)
    ensures AllIn(o1, m) && AllIn(o2, m)
    ensures multiset(Lines(o1, m, r)) == multiset(Lines(o2, m, r))
  {
    forall x ensures multiset(o1)[x] == multiset(o2)[x] {
      DistinctMultiplicity(o1, x);
      DistinctMultiplicity(o2, x);
    }
    assert multiset(o1) == multiset(o2);
    PermutedMap(o1, o2, LineOf(m, r));
  }

  /** A payload whose only key is `status` gets the placeholder text and keeps its status. */
  lemma StatusOnlyPayload(body: string, order: seq<string>, r: Renderer)
    requires ValidOrder(Some(map["status" := JString("error")]), order)
    ensures order == []
    ensures StoredText(ChosenText(body, Some(map["status" := JString("error")]), order, r)) == Placeholder
    ensures StatusOf(Some(map["status" := JString("error")])) == "error"
  {
    var m := map["status" := JString("error")];
    FallbackOneLinePerKey(m, order, r);
    assert ContributingKeys(m) == {};
  }
}
