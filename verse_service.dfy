/**
 * Verse generation: each model is asked up to `retries + 1` times, its reply
 * stripped of Markdown code fences and parsed; the light model is tried first,
 * then the stable one, then a verse of the offline collection. The model
 * service, its 12-second timeout, `JSON.parse` and the random pick are inputs.
 */
module VerseService {
  import opened Prelude
  import opened Text
  import opened Store

  /** The model asked first. */
  const LiteModel: string := "gemini-2.5-flash-lite"
  /** The model asked when the first one fails. */
  const FlashModel: string := "gemini-2.5-flash"
  /** The retries `generateVerse` leaves at their default: two attempts per model. */
  const DefaultRetries: nat := 1
  /** The rejection of a request that takes more than 12000 ms. */
  const TimeoutMessage: string := "Request timed out after 12000ms"
  /** The error of a reply without text. */
  const NoResponseMessage: string := "No response from AI"

  /** A Markdown code fence. */
  const Fence: string := "```"
  /** An opening fence that names the JSON language. */
  const JsonFence: string := "```json"

  /** What one request to the model service comes to. */
  datatype Reply =
    | Answered(text: Option<string>)   // the response; its text may be missing
    | Rejected(message: string)        // the request failed
    | TimedOut                         // no answer within 12000 ms

  // ---------------------------------------------------------------- fences

  /** The reply text with every `` ```json `` removed, then every `` ``` ``, then trimmed. */
  function StripFences(text: string): string {
    Trim(RemoveAll(RemoveAll(text, JsonFence), Fence))
  }

  /** Three backticks start at offset `i` of `s`. */
  predicate FenceAt(s: string, i: int) {
    0 <= i && i + 2 < |s| && s[i] == '`' && s[i + 1] == '`' && s[i + 2] == '`'
  }

  /** Removing every fence leaves no three backticks in a row. */
  lemma {:induction false} RemoveFencesLeavesNone(s: string, i: int)
    ensures !FenceAt(RemoveAll(s, Fence), i)
    decreases |s|
  {
    var r := RemoveAll(s, Fence);
    if s == [] {
    } else if Fence <= s {
      RemoveFencesLeavesNone(s[3..], i);
    } else {
      RemoveAllSteps(s, Fence);
      var rest := RemoveAll(s[1..], Fence);
      assert r == [s[0]] + rest;
      if i > 0 {
        RemoveFencesLeavesNone(s[1..], i - 1);
        assert FenceAt(r, i) ==> FenceAt(rest, i - 1);
      } else if i == 0 && s[0] == '`' && |s| >= 3 {
        if s[1] != '`' {
          RemoveAllSteps(s[1..], Fence);
          assert rest[0] == s[1];
        } else {
          assert s[2] != '`';
          assert !(Fence <= s[1..]);
          RemoveAllSteps(s[1..], Fence);
          RemoveAllSteps(s[2..], Fence);
          assert rest == [s[1]] + ([s[2]] + RemoveAll(s[3..], Fence));
          assert r[2] == s[2];
        }
      }
    }
  }

  /** An occurrence of the fence is three backticks in a row. */
  lemma FenceOccurrence(t: string, i: int)
    ensures OccursAt(t, Fence, i) ==> FenceAt(t, i)
  {
    if OccursAt(t, Fence, i) {
      assert t[i..i + 3] == Fence;
      assert t[i] == Fence[0] && t[i + 1] == Fence[1] && t[i + 2] == Fence[2];
    }
  }

  /** Three backticks in a piece of a string are three backticks in the string. */
  lemma FenceInSlice(r: string, k: nat, t: string, i: int)
    requires k + |t| <= |r| && t == r[k..k + |t|]
    ensures FenceAt(t, i) ==> FenceAt(r, k + i)
  {
    if FenceAt(t, i) {
      assert r[k + i] == t[i] && r[k + i + 1] == t[i + 1] && r[k + i + 2] == t[i + 2];
    }
  }

  /** Trimming a string without three backticks in a row leaves no code fence. */
  lemma NoFenceAfterTrim(r: string)
    requires forall i :: !FenceAt(r, i)
    ensures !Contains(Trim(r), Fence)
  {
    var t := Trim(r);
    var k := TrimCutsOnlySpace(r);
    forall i | true
      ensures !OccursAt(t, Fence, i)
    {
      FenceOccurrence(t, i);
      FenceInSlice(r, k, t, i);
    }
    ContainsIffInfix(t, Fence);
  }

  /** After the cleanup no code fence is left in the text. */
  lemma NoFenceRemains(text: string)
    ensures !Contains(StripFences(text), Fence)
  {
    var s := RemoveAll(text, JsonFence);
    forall i | true
      ensures !FenceAt(RemoveAll(s, Fence), i)
    {
      RemoveFencesLeavesNone(s, i);
    }
    NoFenceAfterTrim(RemoveAll(s, Fence));
  }

  /** Removal passes over a prefix that cannot start the pattern. */
  lemma {:induction false} RemoveAllSkips(a: string, b: string, pat: string)
    requires pat != [] && pat[0] !in a
    ensures RemoveAll(a + b, pat) == a + RemoveAll(b, pat)
    decreases |a|
  {
    if a == [] {
      assert a + b == b;
    } else {
      RemoveAllSkips(a[1..], b, pat);
      assert (a + b)[1..] == a[1..] + b;
      RemoveAllSteps(a + b, pat);
      assert a == [a[0]] + a[1..];
    }
  }

  /** A text without backticks is only trimmed. */
  lemma StripFencesOfPlainText(text: string)
    requires '`' !in text
    ensures StripFences(text) == Trim(text)
  {
    RemoveAllSkips(text, [], JsonFence);
    RemoveAllSkips(text, [], Fence);
    assert text + [] == text;
  }

  /** A JSON text wrapped in a `` ```json `` fence comes back trimmed. */
  lemma StripFencesUnwraps(text: string)
    requires '`' !in text
    ensures StripFences(JsonFence + text + Fence) == Trim(text)
  {
    var s := JsonFence + text + Fence;
    assert JsonFence <= s;
    assert s[7..] == text + Fence;
    assert RemoveAll(s, JsonFence) == RemoveAll(text + Fence, JsonFence);
    RemoveAllSkips(text, Fence, JsonFence);
    assert RemoveAll(Fence, JsonFence) == Fence;
    RemoveAllSkips(text, Fence, Fence);
    assert RemoveAll(Fence, Fence) == [];
    assert text + [] == text;
  }

  // ---------------------------------------------------------------- one model

  /** The decoding of a reply text: `JSON.parse` of the text after the fence cleanup. */
  function ReplyDecoder(parse: string -> Result<Verse>): string -> Result<Verse> {
    text => parse(StripFences(text))
  }

  /** One attempt: the reply text, if any, decoded by `decode`. */
  function Outcome(reply: Reply, decode: string -> Result<Verse>): (r: Result<Verse>)
    ensures r.Success? ==>
              reply.Answered? && reply.text.Some? && reply.text.value != [] && r == decode(reply.text.value)
    ensures reply == Answered(None) || reply == Answered(Some([])) ==> r == Failure(NoResponseMessage)
    ensures reply == TimedOut ==> r == Failure(TimeoutMessage)
    ensures reply.Answered? && reply.text.Some? && reply.text.value != [] ==> r == decode(reply.text.value)
    ensures reply.Rejected? ==> r == Failure(reply.message)
  {
    match reply
    case TimedOut => Failure(TimeoutMessage)
    case Rejected(message) => Failure(message)
    case Answered(text) =>
      if text.None? || text.value == [] then Failure(NoResponseMessage) else decode(text.value)
  }

  /** A fenced JSON reply is parsed without its fences. */
  lemma FencedReplyParsed(text: string, parse: string -> Result<Verse>)
    requires '`' !in text
    ensures Outcome(Answered(Some(JsonFence + text + Fence)), ReplyDecoder(parse)) == parse(Trim(text))
  {
    StripFencesUnwraps(text);
  }

  /** The outcomes of a run of replies. */
  function Outcomes(replies: seq<Reply>, decode: string -> Result<Verse>): (r: seq<Result<Verse>>)
    ensures |r| == |replies|
  {
    seq(|replies|, i requires 0 <= i < |replies| => Outcome(replies[i], decode))
  }

  /** How many attempts a run makes: up to and including the first success, or all of them. */
  function AttemptsUsed(outs: seq<Result<Verse>>): (n: nat)
    requires |outs| >= 1
    ensures 1 <= n <= |outs|
    ensures forall j :: 0 <= j < n - 1 ==> outs[j].Failure?
    ensures outs[n - 1].Success? || n == |outs|
    decreases |outs|
  {
    if outs[0].Success? || |outs| == 1 then 1 else 1 + AttemptsUsed(outs[1..])
  }

  /** The attempt count is the only one that stops at the first success. */
  lemma AttemptsUsedIs(outs: seq<Result<Verse>>, k: nat)
    requires k < |outs|
    requires forall j :: 0 <= j < k ==> outs[j].Failure?
    requires outs[k].Success? || k == |outs| - 1
    ensures AttemptsUsed(outs) == k + 1
  {
  }

  /** What a run settles on: the first success, or the last failure when every attempt fails. */
  function Settled(outs: seq<Result<Verse>>): (r: Result<Verse>)
    requires |outs| >= 1
    ensures r.Success? <==> exists i :: 0 <= i < |outs| && outs[i].Success?
    ensures r.Failure? ==> r == outs[|outs| - 1]
  {
    outs[AttemptsUsed(outs) - 1]
  }

  /** What asking one model comes to with the default retries. */
  function ModelAnswer(replies: seq<Reply>, parse: string -> Result<Verse>): Result<Verse>
    requires |replies| > DefaultRetries
  {
    Settled(Outcomes(replies[..DefaultRetries + 1], ReplyDecoder(parse)))
  }

  /** The attempt count and result of a run whose first `k` attempts fail and whose attempt `k` is the last one made. */
  lemma RunStopsAt(replies: seq<Reply>, decode: string -> Result<Verse>, retries: nat, k: nat)
    requires k <= retries < |replies|
    requires forall j :: 0 <= j < k ==> Outcome(replies[j], decode).Failure?
    requires Outcome(replies[k], decode).Success? || k == retries
    ensures AttemptsUsed(Outcomes(replies[..retries + 1], decode)) == k + 1
    ensures Settled(Outcomes(replies[..retries + 1], decode)) == Outcome(replies[k], decode)
  {
    AttemptsUsedIs(Outcomes(replies[..retries + 1], decode), k);
  }

  /**
   * `generateWithModel`: up to `retries + 1` attempts, `replies[i]` answering
   * attempt `i` and `decode` being `ReplyDecoder(JSON.parse)`. It returns on the
   * first success; otherwise the last error is the result. A one-second pause
   * separates failed attempts; none follows the last.
   */
  method GenerateWithModel(replies: seq<Reply>, decode: string -> Result<Verse>, retries: nat)
    returns (result: Result<Verse>, attempts: nat, delays: nat)
    requires |replies| > retries
    ensures attempts == AttemptsUsed(Outcomes(replies[..retries + 1], decode))
    ensures result == Settled(Outcomes(replies[..retries + 1], decode))
    ensures delays == attempts - 1
  {
    var lastError := "";
    attempts, delays := 0, 0;
    var i := 0;
    while i <= retries
      invariant 0 <= i <= retries + 1
      invariant attempts == i
      invariant forall j :: 0 <= j < i ==> Outcome(replies[j], decode).Failure?
      invariant delays == if i <= retries then i else retries
      invariant i > 0 ==> lastError == Outcome(replies[i - 1], decode).error
    {
      var outcome := Outcome(replies[i], decode);
      attempts := attempts + 1;
      if outcome.Success? {
        RunStopsAt(replies, decode, retries, i);
        result := outcome;
        return;
      }
      lastError := outcome.error;
      if i < retries {
        delays := delays + 1;
      }
      i := i + 1;
    }
    RunStopsAt(replies, decode, retries, retries);
    result := Failure(lastError);
  }

  // ---------------------------------------------------------------- fallback chain

  /** `offlineVerses[Math.floor(Math.random() * offlineVerses.length)]`, `pick` being the index drawn. */
  function OfflinePick(offline: seq<Verse>, pick: nat): (r: Option<Verse>)
    requires |offline| > 0 ==> pick < |offline|
    ensures r.Some? <==> |offline| > 0
    ensures r.Some? ==> r.value in offline
  {
    if |offline| == 0 then None else Some(offline[pick])
  }

  /**
   * `generateVerse`: offline, an offline verse and no request; online, the light
   * model, then the stable model, then an offline verse. `asked` lists the
   * models asked, in order. It never fails; with an empty offline collection the
   * last fallback is `undefined`, here `None`.
   */
  method GenerateVerse(online: bool, liteReplies: seq<Reply>, flashReplies: seq<Reply>,
                       parse: string -> Result<Verse>, offline: seq<Verse>, pick: nat)
    returns (verse: Option<Verse>, asked: seq<string>)
    requires |liteReplies| > DefaultRetries && |flashReplies| > DefaultRetries
    requires |offline| > 0 ==> pick < |offline|
    ensures !online ==> asked == [] && verse == OfflinePick(offline, pick)
    ensures online ==> asked == [LiteModel] + (if ModelAnswer(liteReplies, parse).Success? then [] else [FlashModel])
    ensures online && ModelAnswer(liteReplies, parse).Success? ==> verse == Some(ModelAnswer(liteReplies, parse).value)
    ensures online && ModelAnswer(liteReplies, parse).Failure? && ModelAnswer(flashReplies, parse).Success? ==>
              verse == Some(ModelAnswer(flashReplies, parse).value)
    ensures online && ModelAnswer(liteReplies, parse).Failure? && ModelAnswer(flashReplies, parse).Failure? ==>
              verse == OfflinePick(offline, pick)
    ensures |offline| > 0 ==> verse.Some?
  {
    if !online {
      return OfflinePick(offline, pick), [];
    }
    var lite, _, _ := GenerateWithModel(liteReplies, ReplyDecoder(parse), DefaultRetries);
    if lite.Success? {
      return Some(lite.value), [LiteModel];
    }
    var flash, _, _ := GenerateWithModel(flashReplies, ReplyDecoder(parse), DefaultRetries);
    if flash.Success? {
      return Some(flash.value), [LiteModel, FlashModel];
    }
    return OfflinePick(offline, pick), [LiteModel, FlashModel];
  }
}
