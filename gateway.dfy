/**
 * The model gateway: `generateJSON` sends a prompt to the generative model up to
 * `maxRetries` times, strips Markdown code fences from the reply, parses it as
 * JSON, and backs off exponentially between failed attempts.
 *
 * The model is an oracle `reply`, indexed by attempt number (1-based), and
 * `JSON.parse` is an oracle `parse`; the prompt text is folded into `reply`.
 */
module Gateway {
  import opened Wrappers

  /** What one call of the model yields: an error thrown by the client, or the reply text. */
  datatype Reply = TransportFailure(message: string) | Completion(text: string)

  const DefaultMaxRetries: nat := 3
  const UnavailablePrefix: string := "AI service unavailable: "
  const JsonFence: string := "```json"
  const Fence: string := "```"

  // ---------------------------------------------------------------------------
  // Fence cleanup: text.replace(/```json\n?/g, '').replace(/```\n?/g, '').trim()
  // ---------------------------------------------------------------------------

  /**
   * A global regex replacement of `marker` followed by an optional newline:
   * the text is scanned from the left and each match is dropped together with
   * one newline right after it, if there is one.
   */
  function RemoveMarker(s: string, marker: string): (r: string)
    requires |marker| > 0
    ensures |r| <= |s|
    decreases |s|
  {
    if |s| == 0 then ""
    else if marker <= s then
      var rest := s[|marker|..];
      if |rest| > 0 && rest[0] == '\n' then RemoveMarker(rest[1..], marker) else RemoveMarker(rest, marker)
    else [s[0]] + RemoveMarker(s[1..], marker)
  }

  /** The characters `String.prototype.trim` removes: white space and line terminators. */
  predicate IsSpace(c: char)
  {
    c == ' ' || c == '\t' || c == '\n' || c == '\r' || c == '\U{000B}' || c == '\U{000C}'
    || c == '\U{00A0}' || c == '\U{1680}' || ('\U{2000}' <= c <= '\U{200A}')
    || c == '\U{2028}' || c == '\U{2029}' || c == '\U{202F}' || c == '\U{205F}'
    || c == '\U{3000}' || c == '\U{FEFF}'
  }

  function TrimStart(s: string): (r: string)
    ensures |r| <= |s|
  {
    if |s| > 0 && IsSpace(s[0]) then TrimStart(s[1..]) else s
  }

  function TrimEnd(s: string): (r: string)
    ensures |r| <= |s|
  {
    if |s| > 0 && IsSpace(s[|s| - 1]) then TrimEnd(s[..|s| - 1]) else s
  }

  function Trim(s: string): string
  {
    TrimEnd(TrimStart(s))
  }

  /** The text handed to `JSON.parse`. */
  function CleanFences(text: string): (r: string)
    ensures |r| <= |text|
  {
    Trim(RemoveMarker(RemoveMarker(text, JsonFence), Fence))
  }

  // ---------------------------------------------------------------------------
  // The retry loop, as a function of the oracles
  // ---------------------------------------------------------------------------

  /** What one attempt yields: the parsed document, or the message of the error it raised. */
  function AttemptOutcome<D>(reply: Reply, parse: string -> Result<D, string>): (r: Result<D, string>)
    ensures reply.TransportFailure? ==> r == Failure(reply.message)
    ensures r.Success? ==> reply.Completion? && r == parse(CleanFences(reply.text))
    ensures reply.Completion? ==> r == parse(CleanFences(reply.text))
  {
    match reply
    case TransportFailure(message) => Failure(message)
    case Completion(text) => parse(CleanFences(text))
  }

  /** The first attempt in `from..maxRetries` whose reply parses, if any. */
  function FirstSuccess<D>(reply: nat -> Reply, parse: string -> Result<D, string>, from: nat, maxRetries: nat): (k: Option<nat>)
    requires 1 <= from
    ensures k.Some? ==> from <= k.value <= maxRetries && AttemptOutcome(reply(k.value), parse).Success?
    ensures k.Some? ==> forall j :: from <= j < k.value ==> AttemptOutcome(reply(j), parse).Failure?
    ensures k.None? ==> forall j :: from <= j <= maxRetries ==> AttemptOutcome(reply(j), parse).Failure?
    decreases maxRetries + 1 - from
  {
    if from > maxRetries then None
    else if AttemptOutcome(reply(from), parse).Success? then Some(from)
    else FirstSuccess(reply, parse, from + 1, maxRetries)
  }

  /** What `generateJSON` returns or throws: the first document that parses, else "AI service unavailable: " and the last error. */
  function Outcome<D>(reply: nat -> Reply, parse: string -> Result<D, string>, maxRetries: nat): (r: Result<D, string>)
    requires maxRetries >= 1
    ensures r.Success? <==> exists k :: 1 <= k <= maxRetries && AttemptOutcome(reply(k), parse).Success?
    ensures r.Failure? ==> r.error == UnavailablePrefix + AttemptOutcome(reply(maxRetries), parse).error
  {
    match FirstSuccess(reply, parse, 1, maxRetries)
    case Some(k) => AttemptOutcome(reply(k), parse)
    case None => Failure(UnavailablePrefix + AttemptOutcome(reply(maxRetries), parse).error)
  }

  /** How many times `generateJSON` calls the model. */
  function Calls<D>(reply: nat -> Reply, parse: string -> Result<D, string>, maxRetries: nat): (n: nat)
    requires maxRetries >= 1
    ensures 1 <= n <= maxRetries
  {
    match FirstSuccess(reply, parse, 1, maxRetries)
    case Some(k) => k
    case None => maxRetries
  }

  function Pow2(n: nat): (p: nat)
    ensures p >= 1
  {
    if n == 0 then 1 else 2 * Pow2(n - 1)
  }

  /** The waits, in milliseconds, after the first `n` failed attempts: 2^1 * 1000, ..., 2^n * 1000. */
  function Backoff(n: nat): (w: seq<nat>)
    ensures |w| == n
  {
    if n == 0 then [] else Backoff(n - 1) + [Pow2(n) * 1000]
  }

  function Total(w: seq<nat>): nat
  {
    if |w| == 0 then 0 else Total(w[..|w| - 1]) + w[|w| - 1]
  }

  // ---------------------------------------------------------------------------
  // generateJSON
  // ---------------------------------------------------------------------------

  /**
   * Tries the model up to `maxRetries` times; `calls` is the number of calls
   * made and `delays` the waits between them, in milliseconds.
   */
  method GenerateJSON<D>(reply: nat -> Reply, parse: string -> Result<D, string>, maxRetries: nat)
    returns (r: Result<D, string>, calls: nat, delays: seq<nat>)
    requires maxRetries >= 1
    ensures r == Outcome(reply, parse, maxRetries)
    ensures calls == Calls(reply, parse, maxRetries)
    ensures forall k :: 1 <= k < calls ==> AttemptOutcome(reply(k), parse).Failure?
    ensures r.Success? ==> r == AttemptOutcome(reply(calls), parse)
    ensures r.Failure? ==> calls == maxRetries
    ensures delays == Backoff(calls - 1)
  {
    var lastError: string := "";
    var attempt: nat := 1;
    calls, delays := 0, [];
    while attempt <= maxRetries
      invariant 1 <= attempt <= maxRetries + 1
      invariant calls == attempt - 1
      invariant forall j :: 1 <= j < attempt ==> AttemptOutcome(reply(j), parse).Failure?
      invariant FirstSuccess(reply, parse, 1, maxRetries) == FirstSuccess(reply, parse, attempt, maxRetries)
      invariant attempt > 1 ==> lastError == AttemptOutcome(reply(attempt - 1), parse).error
      invariant delays == Backoff(if attempt <= maxRetries then attempt - 1 else maxRetries - 1)
    {
      calls := calls + 1;
      var outcome: Result<D, string>;
      match reply(attempt) {
        case TransportFailure(message) =>
          outcome := Failure(message);
        case Completion(raw) =>
          var text := RemoveMarker(raw, JsonFence);
          text := RemoveMarker(text, Fence);
          text := Trim(text);
          outcome := parse(text);
      }
      if outcome.Success? {
        r := outcome;
        return;
      }
      lastError := outcome.error;
      if attempt < maxRetries {
        delays := delays + [Pow2(attempt) * 1000];
      }
      attempt := attempt + 1;
    }
    r := Failure(UnavailablePrefix + lastError);
  }

  // ---------------------------------------------------------------------------
  // Properties
  // ---------------------------------------------------------------------------

  /** The waits add up to 1000 * (2^(n+1) - 2) milliseconds. */
  lemma {:induction false} BackoffTotal(n: nat)
    ensures Total(Backoff(n)) == 1000 * (Pow2(n + 1) - 2)
  {
    if n > 0 {
      BackoffTotal(n - 1);
      assert Backoff(n)[..n - 1] == Backoff(n - 1);
    }
  }

  /** With the default of three attempts and all of them failing: three calls, waits of 2 s and 4 s, 6 s in all. */
  lemma ThreeFailures<D>(reply: nat -> Reply, parse: string -> Result<D, string>)
    requires forall k :: 1 <= k <= DefaultMaxRetries ==> AttemptOutcome(reply(k), parse).Failure?
    ensures Calls(reply, parse, DefaultMaxRetries) == 3
    ensures Backoff(Calls(reply, parse, DefaultMaxRetries) - 1) == [2000, 4000]
    ensures Total(Backoff(Calls(reply, parse, DefaultMaxRetries) - 1)) == 6000
    ensures Outcome(reply, parse, DefaultMaxRetries) == Failure(UnavailablePrefix + AttemptOutcome(reply(3), parse).error)
  {
    assert FirstSuccess(reply, parse, 1, 3) == FirstSuccess(reply, parse, 2, 3) == FirstSuccess(reply, parse, 3, 3);
    BackoffTotal(2);
  }

  /** Two failures and then a reply that parses: the third reply is returned after two waits. */
  lemma TwoFailuresThenSuccess<D>(reply: nat -> Reply, parse: string -> Result<D, string>)
    requires AttemptOutcome(reply(1), parse).Failure? && AttemptOutcome(reply(2), parse).Failure?
    requires AttemptOutcome(reply(3), parse).Success?
    ensures Outcome(reply, parse, DefaultMaxRetries) == AttemptOutcome(reply(3), parse)
    ensures Calls(reply, parse, DefaultMaxRetries) == 3
    ensures Backoff(Calls(reply, parse, DefaultMaxRetries) - 1) == [2000, 4000]
  {
    assert FirstSuccess(reply, parse, 1, 3) == FirstSuccess(reply, parse, 2, 3) == FirstSuccess(reply, parse, 3, 3);
  }

  /** A reply that parses at once ends the loop: one call, no wait. */
  lemma FirstAttemptWins<D>(reply: nat -> Reply, parse: string -> Result<D, string>, maxRetries: nat)
    requires maxRetries >= 1
    requires AttemptOutcome(reply(1), parse).Success?
    ensures Outcome(reply, parse, maxRetries) == AttemptOutcome(reply(1), parse)
    ensures Calls(reply, parse, maxRetries) == 1 && Backoff(0) == []
  {
  }

  // Cleanup properties

  lemma {:induction false} RemoveMarkerNoBacktick(s: string, marker: string)
    requires |marker| > 0 && marker[0] == '`'
    requires '`' !in s
    ensures RemoveMarker(s, marker) == s
  {
    if |s| > 0 {
      assert !(marker <= s) by { assert marker[0] != s[0]; }
      RemoveMarkerNoBacktick(s[1..], marker);
      assert s == [s[0]] + s[1..];
    }
  }

  /** Text with no backtick and no white space at either end reaches `JSON.parse` unchanged. */
  lemma CleanFencesKeepsPlainText(t: string)
    requires '`' !in t
    requires |t| > 0 ==> !IsSpace(t[0]) && !IsSpace(t[|t| - 1])
    ensures CleanFences(t) == t
  {
    RemoveMarkerNoBacktick(t, JsonFence);
    RemoveMarkerNoBacktick(t, Fence);
  }

  predicate HasFenceAt(s: string, i: int)
  {
    0 <= i && i + 3 <= |s| && s[i] == '`' && s[i + 1] == '`' && s[i + 2] == '`'
  }

  /** No three backticks in a row anywhere in `s`. */
  predicate FenceFree(s: string)
  {
    forall i :: 0 <= i <= |s| - 3 ==> !HasFenceAt(s, i)
  }

  lemma FirstCharAfterRemoval(v: string)
    ensures |RemoveMarker(v, Fence)| > 0 && RemoveMarker(v, Fence)[0] == '`' ==> |v| > 0 && v[0] == '`'
  {
  }

  lemma {:induction false} TwoBackticksAfterRemoval(u: string)
    ensures |RemoveMarker(u, Fence)| >= 2 && RemoveMarker(u, Fence)[0] == '`' && RemoveMarker(u, Fence)[1] == '`'
      ==> |u| >= 2 && u[0] == '`' && u[1] == '`'
  {
    if |u| > 0 && !(Fence <= u) {
      assert RemoveMarker(u, Fence) == [u[0]] + RemoveMarker(u[1..], Fence);
      FirstCharAfterRemoval(u[1..]);
    }
  }

  /** After the second replacement no fence of three backticks is left. */
  lemma {:induction false} RemoveFenceLeavesNone(s: string)
    ensures FenceFree(RemoveMarker(s, Fence))
    decreases |s|
  {
    if |s| > 0 {
      if Fence <= s {
        var rest := s[3..];
        if |rest| > 0 && rest[0] == '\n' { RemoveFenceLeavesNone(rest[1..]); } else { RemoveFenceLeavesNone(rest); }
      } else {
        var tail := RemoveMarker(s[1..], Fence);
        RemoveFenceLeavesNone(s[1..]);
        var r := [s[0]] + tail;
        assert RemoveMarker(s, Fence) == r;
        forall i | 0 <= i <= |r| - 3 ensures !HasFenceAt(r, i) {
          if i == 0 {
            TwoBackticksAfterRemoval(s[1..]);
          } else {
            assert !HasFenceAt(tail, i - 1);
          }
        }
      }
    }
  }

  lemma {:induction false} TrimStartIsSuffix(s: string) returns (k: nat)
    ensures k <= |s| && TrimStart(s) == s[k..]
    ensures |TrimStart(s)| > 0 ==> !IsSpace(TrimStart(s)[0])
  {
    if |s| > 0 && IsSpace(s[0]) {
      var k' := TrimStartIsSuffix(s[1..]);
      k := k' + 1;
      assert s[1..][k'..] == s[k..];
    } else {
      k := 0;
    }
  }

  lemma {:induction false} TrimEndIsPrefix(s: string) returns (k: nat)
    ensures k <= |s| && TrimEnd(s) == s[..k]
    ensures |TrimEnd(s)| > 0 ==> !IsSpace(TrimEnd(s)[|TrimEnd(s)| - 1])
  {
    if |s| > 0 && IsSpace(s[|s| - 1]) {
      k := TrimEndIsPrefix(s[..|s| - 1]);
      assert s[..|s| - 1][..k] == s[..k];
    } else {
      k := |s|;
    }
  }

  lemma FenceFreeSlice(s: string, a: nat, b: nat)
    requires a <= b <= |s| && FenceFree(s)
    ensures FenceFree(s[a..b])
  {
    forall i | 0 <= i <= |s[a..b]| - 3 ensures !HasFenceAt(s[a..b], i) {
      assert !HasFenceAt(s, a + i);
    }
  }

  /**
   * What reaches `JSON.parse` has no white space at either end and no run of
   * three backticks left anywhere in it.
   */
  lemma CleanFencesResult(text: string)
    ensures FenceFree(CleanFences(text))
    ensures |CleanFences(text)| > 0 ==> !IsSpace(CleanFences(text)[0])
    ensures |CleanFences(text)| > 0 ==> !IsSpace(CleanFences(text)[|CleanFences(text)| - 1])
  {
    var s := RemoveMarker(RemoveMarker(text, JsonFence), Fence);
    RemoveFenceLeavesNone(RemoveMarker(text, JsonFence));
    var a := TrimStartIsSuffix(s);
    var t := TrimStart(s);
    var b := TrimEndIsPrefix(t);
    assert t[..b] == s[a..a + b];
    FenceFreeSlice(s, a, a + b);
    if |TrimEnd(t)| > 0 {
      assert TrimEnd(t)[0] == t[0];
    }
  }
}
