/** Outbound chunking and inbound frame reassembly of index.ts: a payload
    longer than the frame limit goes out as a count frame followed by
    fragments, and incoming frames are buffered until they parse. */
module Frames {
  import opened Wrappers
  import opened Js

  /** The Java client's default incoming frame limit. */
  const DEFAULT_MAX_FRAME_LENGTH: nat := 16384

  /** `options.maxFrameLength` when truthy, else the default. */
  function MaxFrameLength(option: Option<nat>): (r: nat)
    ensures r > 0
    ensures option.Some? && option.value != 0 ==> r == option.value
    ensures option.None? || option == Some(0) ==> r == DEFAULT_MAX_FRAME_LENGTH
  {
    if option.Some? && option.value != 0 then option.value else DEFAULT_MAX_FRAME_LENGTH
  }

  function Min(a: int, b: int): int { if a <= b then a else b }

  /** `Math.ceil(n / d)` for whole numbers: the least r with n <= r * d. */
  function CeilDiv(n: nat, d: nat): (r: nat)
    requires d > 0
    ensures n <= r * d
    ensures r > 0 ==> (r - 1) * d < n
    decreases n
  {
    if n == 0 then 0 else if n <= d then 1 else 1 + CeilDiv(n - d, d)
  }

  function DigitChar(d: nat): char
    requires d < 10
  {
    "0123456789"[d]
  }

  function DigitValue(c: char): nat
  {
    if '0' <= c <= '9' then (c - '0') as nat else 0
  }

  /** `String(n)` for a whole number. */
  function DecimalString(n: nat): (r: string)
    ensures |r| > 0
    ensures forall i :: 0 <= i < |r| ==> '0' <= r[i] <= '9'
  {
    if n < 10 then [DigitChar(n)] else DecimalString(n / 10) + [DigitChar(n % 10)]
  }

  /** The number a string of decimal digits denotes. */
  function DecimalValue(s: string): nat
  {
    if s == [] then 0 else DecimalValue(s[..|s| - 1]) * 10 + DigitValue(s[|s| - 1])
  }

  /** The count frame reads back as the count. */
  lemma {:induction false} DecimalRoundTrip(n: nat)
    ensures DecimalValue(DecimalString(n)) == n
  {
    if n >= 10 {
      var s := DecimalString(n);
      assert s[..|s| - 1] == DecimalString(n / 10);
      DecimalRoundTrip(n / 10);
    }
  }

  /** The fragments `payload.substr(startIdx, max)` for `startIdx` = 0,
      max, 2 max, ... below the payload's length. */
  function Fragments(payload: string, max: nat): (r: seq<string>)
    requires max > 0
    decreases |payload|
  {
    if payload == [] then []
    else
      var n := Min(max, |payload|);
      [payload[..n]] + Fragments(payload[n..], max)
  }

  function Concat(parts: seq<string>): string
  {
    if parts == [] then [] else parts[0] + Concat(parts[1..])
  }

  /** As many fragments as the count frame announces. */
  lemma {:induction false} FragmentCount(payload: string, max: nat)
    requires max > 0
    ensures |Fragments(payload, max)| == CeilDiv(|payload|, max)
    decreases |payload|
  {
    if payload != [] {
      var n := Min(max, |payload|);
      FragmentCount(payload[n..], max);
    }
  }

  /** Every fragment is non-empty and within the limit, and all but the
      last are exactly at it. */
  lemma {:induction false} FragmentSizes(payload: string, max: nat)
    requires max > 0
    ensures var f := Fragments(payload, max);
      (forall i :: 0 <= i < |f| ==> 0 < |f[i]| <= max)
      && (forall i :: 0 <= i < |f| - 1 ==> |f[i]| == max)
    decreases |payload|
  {
    if payload != [] {
      var n := Min(max, |payload|);
      FragmentSizes(payload[n..], max);
      var f := Fragments(payload, max);
      assert f[1..] == Fragments(payload[n..], max);
      assert forall i :: 1 <= i < |f| ==> f[i] == f[1..][i - 1];
      assert |payload| > max ==> n == max;
      assert |payload| <= max ==> payload[n..] == [] && |f| == 1;
    }
  }

  /** The fragments put back together are the payload. */
  lemma {:induction false} FragmentsConcat(payload: string, max: nat)
    requires max > 0
    ensures Concat(Fragments(payload, max)) == payload
    decreases |payload|
  {
    if payload != [] {
      var n := Min(max, |payload|);
      FragmentsConcat(payload[n..], max);
      var f := Fragments(payload, max);
      assert f[1..] == Fragments(payload[n..], max);
      assert payload == payload[..n] + payload[n..];
    }
  }

  /** The frames a payload goes out as: the fragment count, then the
      fragments. */
  function Chunked(payload: string, max: nat): seq<string>
    requires max > 0
  {
    [DecimalString(CeilDiv(|payload|, max))] + Fragments(payload, max)
  }

  /** The frames `send` writes: `String(numFragments)`, then each
      `payload.substr(startIdx, maxFrameLength)`. */
  method SplitPayload(payload: string, max: nat) returns (frames: seq<string>)
    requires max > 0
    ensures frames == Chunked(payload, max)
  {
    frames := [DecimalString(CeilDiv(|payload|, max))];
    var startIdx := 0;
    while startIdx < |payload|
      invariant 0 <= startIdx <= |payload|
      invariant frames + Fragments(payload[startIdx..], max)
        == [DecimalString(CeilDiv(|payload|, max))] + Fragments(payload, max)
      decreases |payload| - startIdx
    {
      var end := Min(startIdx + max, |payload|);
      assert payload[startIdx..][..end - startIdx] == payload[startIdx..end];
      assert payload[startIdx..][end - startIdx..] == payload[end..];
      frames := frames + [payload[startIdx..end]];
      startIdx := end;
    }
  }

  /** A receiver that reads the count frame and concatenates that many
      following frames gets the payload back, each frame within the
      limit. */
  lemma SendRoundTrip(payload: string, max: nat, frames: seq<string>)
    requires max > 0
    requires frames == Chunked(payload, max)
    ensures DecimalValue(frames[0]) == |frames| - 1
    ensures Concat(frames[1..]) == payload
    ensures forall i :: 1 <= i < |frames| ==> 0 < |frames[i]| <= max
  {
    DecimalRoundTrip(CeilDiv(|payload|, max));
    FragmentCount(payload, max);
    FragmentsConcat(payload, max);
    FragmentSizes(payload, max);
    assert frames[1..] == Fragments(payload, max);
  }

  /** accumulateFrames on a buffer: the parse of buffer + data resets the
      buffer; a failed parse appends the data and yields ''. `parse` is
      JSON.parse, None standing for the SyntaxError. */
  function Accumulate(buffer: string, data: string, parse: string -> Option<Json>): (r: (Json, string))
    ensures parse(buffer + data).Some? ==> r == (parse(buffer + data).value, "")
    ensures parse(buffer + data).None? ==> r == (Str(""), buffer + data)
  {
    match parse(buffer + data)
    case Some(v) => (v, "")
    case None => (Str(""), buffer + data)
  }

  /** The values accumulateFrames yields, frame after frame, and the
      buffer left at the end. */
  function AccumulateAll(buffer: string, frames: seq<string>, parse: string -> Option<Json>): (r: (seq<Json>, string))
    ensures |r.0| == |frames|
    decreases |frames|
  {
    if frames == [] then ([], buffer)
    else
      var (v, b) := Accumulate(buffer, frames[0], parse);
      var (vs, last) := AccumulateAll(b, frames[1..], parse);
      ([v] + vs, last)
  }

  /** Reassembly: fed the fragments of a payload on an empty buffer, when no
      proper prefix of the payload parses (true of the objects clients send),
      every frame but the last yields '' and the last yields the payload's
      value, leaving the buffer empty. */
  lemma {:induction false} Reassembly(prefix: string, payload: string, max: nat, parse: string -> Option<Json>)
    requires max > 0 && payload != []
    requires parse(prefix + payload).Some?
    requires forall n :: |prefix| <= n < |prefix| + |payload| ==> parse((prefix + payload)[..n]).None?
    ensures var (vs, buffer) := AccumulateAll(prefix, Fragments(payload, max), parse);
      && buffer == ""
      && vs[|vs| - 1] == parse(prefix + payload).value
      && forall i :: 0 <= i < |vs| - 1 ==> vs[i] == Str("")
    decreases |payload|
  {
    var n := Min(max, |payload|);
    var frames := Fragments(payload, max);
    assert frames[0] == payload[..n];
    assert (prefix + payload)[..|prefix| + n] == prefix + payload[..n];
    if n == |payload| {
      assert payload[..n] == payload;
      assert frames == [payload];
    } else {
      var rest := payload[n..];
      assert prefix + payload == (prefix + payload[..n]) + rest;
      assert parse(prefix + payload[..n]).None?;
      assert frames[1..] == Fragments(rest, max);
      forall m | |prefix + payload[..n]| <= m < |prefix + payload[..n]| + |rest|
        ensures parse(((prefix + payload[..n]) + rest)[..m]).None?
      {
        assert ((prefix + payload[..n]) + rest)[..m] == (prefix + payload)[..m];
      }
      Reassembly(prefix + payload[..n], rest, max, parse);
    }
  }
}
