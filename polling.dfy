/** The do-while loop that polls the analyzer's operation until it is no
    longer running or the try ceiling is reached. */
module Polling {
  import opened Http

  /** Poll attempts before the handler stops waiting (about 30 s at one
      poll every 2 s). */
  const MaxTries: nat := 15

  /** Message of the TypeError raised when a truthy `status` that is not a
      string is lower-cased. */
  const NotAFunctionMessage: string := "pollData.status.toLowerCase is not a function"

  /** The `status` field of a decoded poll body, as JavaScript sees it. */
  datatype StatusField =
    | Absent                    // undefined or null
    | Str(s: string)            // a string; falsy exactly when empty
    | NonString(truthy: bool)   // a number, boolean, object or array

  /** One poll: the decoded body and its status field, or an exception
      from the fetch or from decoding the body. */
  datatype PollOutcome =
    | PollReply(status: StatusField, document: string)
    | PollThrew(message: string)

  /** The replies the operation gives, by poll number (0 is the first). */
  type PollService = nat -> PollOutcome

  /** What the loop condition makes of one poll. */
  datatype PollStep = KeepPolling | Settled | Threw(message: string)

  function LowerChar(c: char): char
  {
    if 'A' <= c <= 'Z' then (c as int - 'A' as int + 'a' as int) as char else c
  }

  /** `toLowerCase` on the ASCII letters. */
  function ToLower(s: string): (r: string)
    ensures |r| == |s|
    ensures forall i :: 0 <= i < |s| ==> r[i] == LowerChar(s[i])
  {
    if s == [] then [] else [LowerChar(s[0])] + ToLower(s[1..])
  }

  /** The word "running" in any mix of upper and lower case. */
  predicate IsRunningWord(s: string)
  {
    |s| == 7 && forall i :: 0 <= i < 7 ==> s[i] == "running"[i] || s[i] == "RUNNING"[i]
  }

  /** The status part of the loop condition, evaluated left to right: a
      falsy status stops the loop, a string goes on when it lower-cases to
      "running", and a truthy non-string raises a TypeError. */
  function Classify(reply: PollOutcome): PollStep
  {
    match reply
    case PollThrew(message) => Threw(message)
    case PollReply(status, _) =>
      match status
      case Absent => Settled
      case NonString(truthy) => if truthy then Threw(NotAFunctionMessage) else Settled
      case Str(s) => if s != "" && ToLower(s) == "running" then KeepPolling else Settled
  }

  /** Lower-casing yields a given lower-case letter exactly from that letter
      or its upper-case form. */
  lemma LowerCharIs(c: char, lower: char, upper: char)
    requires 'a' <= lower <= 'z' && upper as int == lower as int - 32
    ensures LowerChar(c) == lower <==> c == lower || c == upper
  {
  }

  /** A string lower-cases to "running" exactly when it is that word in any
      mix of cases. */
  lemma LowersToRunning(s: string)
    ensures ToLower(s) == "running" <==> IsRunningWord(s)
  {
    var r := ToLower(s);
    if |s| == 7 {
      forall i | 0 <= i < 7
        ensures r[i] == "running"[i] <==> s[i] == "running"[i] || s[i] == "RUNNING"[i]
      {
        LowerCharIs(s[i], "running"[i], "RUNNING"[i]);
      }
      if IsRunningWord(s) {
        assert r == "running";
      }
    }
  }

  /** Polling goes on after a reply exactly when it is a string status equal
      to "running" ignoring case; a reply without a status, with any other
      status or an empty one ends the loop. */
  lemma KeepPollingIff(reply: PollOutcome)
    ensures Classify(reply) == KeepPolling <==>
      reply.PollReply? && reply.status.Str? && IsRunningWord(reply.status.s)
  {
    if reply.PollReply? && reply.status.Str? {
      LowersToRunning(reply.status.s);
    }
  }

  /** The loop ends in an exception exactly when the poll itself failed or
      its status is a truthy non-string. */
  lemma ThrewIff(reply: PollOutcome)
    ensures Classify(reply).Threw? <==>
      reply.PollThrew? || reply.status == NonString(true)
  {
  }

  /** Number of polls made when `done` polls have been made and the loop
      goes round again. */
  function PollCountFrom(service: PollService, done: nat): (n: nat)
    requires done < MaxTries
    ensures done < n <= MaxTries
    decreases MaxTries - done
  {
    if Classify(service(done)) == KeepPolling && done + 1 < MaxTries
    then PollCountFrom(service, done + 1)
    else done + 1
  }

  /** Number of polls the do-while makes against `service`. */
  function PollCount(service: PollService): (n: nat)
    ensures 1 <= n <= MaxTries
  {
    PollCountFrom(service, 0)
  }

  /** The loop stops after exactly `n` polls: every earlier reply said
      "running", and the `n`-th either did not or was the last allowed. */
  predicate StopsAt(service: PollService, n: nat)
  {
    1 <= n <= MaxTries &&
    (forall k :: 0 <= k < n - 1 ==> Classify(service(k)) == KeepPolling) &&
    (n == MaxTries || Classify(service(n - 1)) != KeepPolling)
  }

  lemma {:induction false} PollCountFromStops(service: PollService, done: nat)
    requires done < MaxTries
    requires forall k :: 0 <= k < done ==> Classify(service(k)) == KeepPolling
    ensures StopsAt(service, PollCountFrom(service, done))
    decreases MaxTries - done
  {
    if Classify(service(done)) == KeepPolling && done + 1 < MaxTries {
      PollCountFromStops(service, done + 1);
    }
  }

  /** At most one poll count fits the stopping rule. */
  lemma StopsAtUnique(service: PollService, m: nat, n: nat)
    requires StopsAt(service, m) && StopsAt(service, n)
    ensures m == n
  {
  }

  /** The do-while makes exactly `n` polls if and only if `n` fits the
      stopping rule: at least one poll, at most `MaxTries`, and it goes on
      only while the status is "running" and the ceiling is not reached. */
  lemma PollCountCharacterised(service: PollService, n: nat)
    ensures n == PollCount(service) <==> StopsAt(service, n)
  {
    PollCountFromStops(service, 0);
    if StopsAt(service, n) {
      StopsAtUnique(service, n, PollCount(service));
    }
  }

  /** What the handler answers once the loop has ended: the last poll's
      body with 200, or the exception that ended it as a server error. */
  function PollResult(service: PollService): Response
  {
    match service(PollCount(service) - 1)
    case PollThrew(message) => ServerError(message)
    case PollReply(status, document) =>
      if status == NonString(true) then ServerError(NotAFunctionMessage)
      else Response(200, JsonBody(document))
  }

  /** The loop answers 200 with the body of the last poll unless that poll
      threw; a body that still says "running" is returned when the ceiling
      is hit. */
  lemma PollResultIsLastBody(service: PollService)
    ensures var last := service(PollCount(service) - 1);
      PollResult(service) ==
        if Classify(last).Threw? then ServerError(Classify(last).message)
        else Response(200, JsonBody(last.document))
  {
  }

  /** A service whose status always reads "running" (in any case) is
      polled exactly `MaxTries` times, and its last, still-running body is
      returned with 200 rather than a timeout error. */
  lemma TimeoutIsBestEffort(service: PollService, word: string, document: string)
    requires IsRunningWord(word)
    requires forall k :: service(k) == PollReply(Str(word), document)
    ensures PollCount(service) == MaxTries
    ensures PollResult(service) == Response(200, JsonBody(document))
  {
    KeepPollingIff(PollReply(Str(word), document));
    PollCountCharacterised(service, MaxTries);
  }

  /** Fourteen "running" replies and then a fifteenth reply with a string
      status: all fifteen polls are made and the fifteenth body is
      returned, whatever its status says. */
  lemma SettlesOnLastTry(service: PollService, word: string, finalStatus: string, done: string)
    requires IsRunningWord(word)
    requires forall k: nat :: k < MaxTries - 1 ==> service(k).PollReply? && service(k).status == Str(word)
    requires service(MaxTries - 1) == PollReply(Str(finalStatus), done)
    ensures PollCount(service) == MaxTries
    ensures PollResult(service) == Response(200, JsonBody(done))
  {
    forall k: nat | k < MaxTries - 1
      ensures Classify(service(k)) == KeepPolling
    {
      KeepPollingIff(service(k));
    }
    PollCountCharacterised(service, MaxTries);
  }

  /** A first reply that is not "running" ends the loop after one poll. */
  lemma SettlesOnFirstReply(service: PollService)
    requires Classify(service(0)) != KeepPolling
    ensures PollCount(service) == 1
  {
    PollCountCharacterised(service, 1);
  }
}
