/** How a worker reports the end of a job, and how the master reads the report. */
module Callbacks {
  import opened Prelude
  import opened Text

  /** The field behind the first pipe. */
  function SecondField(s: string): string
  {
    var rest := s[IndexOf(s, '|') + 1..];
    var i := IndexOf(rest, '|');
    if i == -1 then rest else rest[..i]
  }

  /** The verdict a worker derives from a handler's result; None is a null result. */
  function CallbackStatus(result: Option<string>): string
  {
    match result
    case None => "FAILED"
    case Some(r) =>
      if StartsWith(r, "ERROR") then "FAILED"
      else if StartsWith(r, "COMPLETED|") then
        var code := ParseInt(Trim(SecondField(r)), MIN_INT, MAX_INT);
        if code.Some? && code.value != 0 then "FAILED" else "COMPLETED"
      else "COMPLETED"
  }

  /** What the script handler returns for a process that ended. */
  function ScriptResult(exitCode: int, output: string): string
  {
    "COMPLETED|" + (PrintInt(exitCode) + "|" + output)
  }

  lemma SecondFieldAt(head: string, field: string, tail: string)
    requires '|' !in head && '|' !in field
    ensures SecondField(head + "|" + (field + "|" + tail)) == field
  {
    var rest := field + "|" + tail;
    var s := head + "|" + rest;
    IndexOfAt(head, '|', rest);
    assert s[|head| + 1..] == rest;
    IndexOfAt(field, '|', tail);
    assert rest[..|field|] == field;
  }

  lemma NotAnError(s: string)
    requires StartsWith(s, "COMPLETED|")
    ensures !StartsWith(s, "ERROR")
  {
    assert s[0] == "COMPLETED|"[0] && "ERROR"[0] != 'C';
  }

  /** A finished script is reported complete exactly when it exited with code zero, whatever it printed. */
  lemma ExitCodeDecides(exitCode: int, output: string)
    requires -0x8000_0000 <= exitCode <= 0x7fff_ffff
    ensures CallbackStatus(Some(ScriptResult(exitCode, output))) == if exitCode == 0 then "COMPLETED" else "FAILED"
  {
    PrintIntClean(exitCode);
    TrimTight(PrintInt(exitCode));
    ParsePrintInt(exitCode, MIN_INT, MAX_INT);
    NotAnError(ScriptResult(exitCode, output));
    var head := "COMPLETED";
    assert "COMPLETED|" == head + "|";
    hide PrintInt, ParseInt, Trim, Tight, SecondField;
    SecondFieldAt(head, PrintInt(exitCode), output);
  }

  function FormatCallback(id: string, status: string, result: string): string
  {
    id + "|" + (status + "|" + result)
  }

  /** payload.split("\\|", 3), as far as the master uses it; None when there is no second part. */
  function ParseCallback(payload: string): Option<(string, bool)>
  {
    var i := IndexOf(payload, '|');
    if i == -1 then None
    else
      var rest := payload[i + 1..];
      var k := IndexOf(rest, '|');
      Some((payload[..i], (if k == -1 then rest else rest[..k]) == "COMPLETED"))
  }

  /** The master reads the id and the verdict the worker sent, though the result may hold pipes. */
  lemma CallbackRoundTrip(id: string, status: string, result: string)
    requires '|' !in id && '|' !in status
    ensures ParseCallback(FormatCallback(id, status, result)) == Some((id, status == "COMPLETED"))
    ensures ParseCallback(id + "|" + status) == Some((id, status == "COMPLETED")) && ParseCallback(id) == None
  {
    IndexOfAt(id, '|', status);
    var short := id + "|" + status;
    assert short[..|id|] == id && short[|id| + 1..] == status;
    var rest := status + "|" + result;
    var s := id + "|" + rest;
    IndexOfAt(id, '|', rest);
    assert s[..|id|] == id && s[|id| + 1..] == rest;
    IndexOfAt(status, '|', result);
    assert rest[..|status|] == status;
  }

  // ----- from the handler to the master -----

  /** How a handler ends: with a result, which may be null, or with an exception, whose message may be. */
  datatype Ending = Returned(result: Option<string>) | Threw(message: Option<string>)

  /** A text, or null, appended to a string. */
  function Shown(text: Option<string>): string
  {
    match text case Some(t) => t case None => "null"
  }

  /** What the worker puts into its callback. */
  function Report(id: string, ending: Ending): string
  {
    match ending
    case Returned(result) => FormatCallback(id, CallbackStatus(result), Shown(result))
    case Threw(message) => FormatCallback(id, "FAILED", Shown(message))
  }

  /** No result, a result that starts with ERROR, or an exception: the master reads a failure. */
  lemma ErrorIsRead(id: string, ending: Ending)
    requires '|' !in id
    requires ending.Threw? || ending.result.None? || "ERROR" <= ending.result.value
    ensures ParseCallback(Report(id, ending)) == Some((id, false))
  {
    var text := if ending.Threw? then ending.message else ending.result;
    assert "FAILED"[0] != "COMPLETED"[0];
    hide FormatCallback, ParseCallback;
    CallbackRoundTrip(id, "FAILED", Shown(text));
  }

  /** Any other text that does not announce an exit code: the master reads a success. */
  lemma PlainResultIsRead(id: string, result: string)
    requires '|' !in id && !("ERROR" <= result) && !("COMPLETED|" <= result)
    ensures ParseCallback(Report(id, Returned(Some(result)))) == Some((id, true))
  {
    hide FormatCallback, ParseCallback;
    CallbackRoundTrip(id, "COMPLETED", result);
  }

  /**
   Of a result that starts with COMPLETED and a pipe, what follows up to the next pipe, if there is one,
   decides: the job failed exactly if that is a number other than zero, blanks aside.
   */
  lemma CodeIsRead(id: string, code: string, tail: Option<string>)
    requires '|' !in id && '|' !in code
    ensures var result := "COMPLETED|" + code + match tail case None => "" case Some(t) => "|" + t;
      var exit := ParseInt(Trim(code), MIN_INT, MAX_INT);
      ParseCallback(Report(id, Returned(Some(result)))) == Some((id, exit.None? || exit.value == 0))
  {
    var rest := match tail case None => "" case Some(t) => "|" + t;
    var result := "COMPLETED|" + code + rest;
    var head := "COMPLETED";
    assert SecondField(result) == code by {
      if tail.Some? {
        assert result == head + "|" + (code + "|" + tail.value);
        SecondFieldAt(head, code, tail.value);
      } else {
        assert result == head + "|" + code;
        IndexOfAt(head, '|', code);
        assert result[|head| + 1..] == code;
      }
    }
    assert StartsWith(result, "COMPLETED|");
    NotAnError(result);
    var status := CallbackStatus(Some(result));
    assert '|' !in status && ("FAILED"[0] != "COMPLETED"[0]);
    hide FormatCallback, ParseCallback, SecondField, ParseInt, Trim;
    CallbackRoundTrip(id, status, result);
  }

  // ----- at-least-once delivery -----

  /** One attempt: never arrived, arrived but the answer was lost, or arrived and was answered. */
  datatype Attempt = Lost | Unanswered | Answered

  function Arrivals(attempts: seq<Attempt>): nat
  {
    if attempts == [] then 0
    else Arrivals(attempts[..|attempts| - 1]) + if attempts[|attempts| - 1].Lost? then 0 else 1
  }

  lemma {:induction false} ArrivalsCount(attempts: seq<Attempt>)
    ensures Arrivals(attempts) == |set k | 0 <= k < |attempts| && attempts[k] != Lost|
  {
    if attempts != [] {
      var n := |attempts| - 1;
      var rest := attempts[..n];
      ArrivalsCount(rest);
      var before := set k | 0 <= k < n && rest[k] != Lost;
      var all := set k | 0 <= k < |attempts| && attempts[k] != Lost;
      assert all == before + if attempts[n] != Lost then {n} else {};
    }
  }

  function Power(n: nat): nat
  {
    if n == 0 then 1 else 2 * Power(n - 1)
  }

  /** Ids for which the worker reports nothing. */
  predicate Unreported(jobId: string)
  {
    jobId == "UNKNOWN" || jobId == "TEST-JOB"
  }

  /** The k-th attempt is made and answered: no earlier one was, and no pause before it was interrupted. */
  predicate AnsweredAt(network: seq<Attempt>, interrupted: seq<bool>, k: nat)
    requires k < |network| <= |interrupted|
  {
    network[k].Answered? && forall m :: 0 <= m < k ==> !network[m].Answered? && !interrupted[m]
  }

  /**
   sendCallback: up to five attempts, doubling the pause, unless a pause is interrupted. The worker
   learns of success exactly when an attempt is answered; the master may by then have received the
   message several times. `interrupted[k]` tells of the pause behind attempt k.
   */
  method SendCallback(jobId: string, network: seq<Attempt>, interrupted: seq<bool>)
    returns (known: bool, attempts: nat, arrived: nat, pausedMs: nat)
    requires |network| == |interrupted| == 5
    ensures Unreported(jobId) <==> attempts == 0
    ensures jobId == "UNKNOWN" || jobId == "TEST-JOB" <==> attempts == 0
    ensures attempts <= 5 && arrived == Arrivals(network[..attempts])
    ensures !Unreported(jobId) ==> (known <==> exists k :: 0 <= k < 5 && AnsweredAt(network, interrupted, k))
    ensures known ==> attempts > 0 && AnsweredAt(network, interrupted, attempts - 1) && arrived >= 1
    ensures !known && 0 < attempts < 5 ==> interrupted[attempts - 1]
    ensures pausedMs <= 15000 && pausedMs == if attempts == 0 then 0 else 1000 * (Power(attempts - 1) - 1)
  {
    known, attempts, arrived, pausedMs := false, 0, 0, 0;
    if jobId == "UNKNOWN" || jobId == "TEST-JOB" {
      return;
    }
    var maxAttempts := 5;
    var delayMs := 1000;
    while attempts < maxAttempts
      invariant attempts <= 5 && arrived == Arrivals(network[..attempts]) && !known
      invariant forall k :: 0 <= k < attempts ==> !network[k].Answered?
      invariant forall k :: 0 <= k < attempts && k < 4 ==> !interrupted[k]
      invariant attempts < 5 ==> delayMs == 1000 * Power(attempts)
      invariant attempts < 5 ==> pausedMs == 1000 * (Power(attempts) - 1)
      invariant attempts == 5 ==> pausedMs == 1000 * (Power(4) - 1)
    {
      var outcome := network[attempts];
      assert network[..attempts + 1][..attempts] == network[..attempts];
      attempts := attempts + 1;
      if !outcome.Lost? {
        arrived := arrived + 1;
      }
      PowerBound(attempts - 1);
      if outcome.Answered? {
        known := true;
        assert AnsweredAt(network, interrupted, attempts - 1);
        return;
      }
      if attempts < maxAttempts {
        if interrupted[attempts - 1] {
          return;
        }
        pausedMs := pausedMs + delayMs;
        delayMs := 2 * delayMs;
      }
    }
    PowerBound(4);
  }

  lemma PowerBound(n: nat)
    requires n <= 4
    ensures Power(n) <= 16
  {
  }
}
