/**
 src/process/execution_result.rs: what a run reports, and the sticky exit status.
 */
module ExecutionResults {
  import opened Measures

  datatype Option<+T> = None | Some(value: T) {
    function GetOr(default: T): T {
      if Some? then value else default
    }
  }

  datatype ExitStatus =
    | OK
    | RE(comment: string)
    | RV(comment: string)
    | TLE(comment: string)
    | MLE(comment: string)
    | OLE(comment: string)

  datatype ExitReason = Exited(exitStatus: int) | Killed(signal: int)

  function Decimal(n: int): string
    decreases if n < 0 then 1 - n else n
  {
    if n < 0 then "-" + Decimal(-n)
    else if n < 10 then [ '0' + n as char ]
    else Decimal(n / 10) + Decimal(n % 10)
  }

  /** What a decimal numeral means. */
  function ValueOf(numeral: string): int
  {
    if numeral == [] then 0
    else if numeral[0] == '-' && |numeral| > 1 then -ValueOf(numeral[1..])
    else if |numeral| == 1 then numeral[0] as int - '0' as int
    else 10 * ValueOf(numeral[..|numeral| - 1]) + (numeral[|numeral| - 1] as int - '0' as int)
  }

  /** Digits only, without a superfluous zero. */
  predicate IsNumeral(s: string) {
    && s != [] && (forall i :: 0 <= i < |s| ==> '0' <= s[i] <= '9')
    && (|s| > 1 ==> s[0] != '0')
  }

  lemma DigitMeaning(n: nat)
    requires n < 10
    ensures Decimal(n) == ['0' + n as char]
    ensures IsNumeral(Decimal(n)) && ValueOf(Decimal(n)) == n && (n > 0 ==> Decimal(n)[0] != '0')
  {}

  lemma Appended(front: string, digit: string)
    requires IsNumeral(front) && front[0] != '0' && IsNumeral(digit) && |digit| == 1
    ensures IsNumeral(front + digit) && (front + digit)[0] == front[0]
    ensures ValueOf(front + digit) == 10 * ValueOf(front) + ValueOf(digit)
  {
    assert (front + digit)[..|front|] == front;
  }

  lemma {:induction false} NaturalMeaning(n: nat)
    ensures IsNumeral(Decimal(n)) && ValueOf(Decimal(n)) == n && (n > 0 ==> Decimal(n)[0] != '0')
  {
    if n < 10 {
      DigitMeaning(n);
    } else {
      var front, digit := Decimal(n / 10), Decimal(n % 10);
      NaturalMeaning(n / 10);
      DigitMeaning(n % 10);
      Appended(front, digit);
    }
  }

  /** Decimal writes the numeral of its argument, with a sign if it is negative. */
  lemma DecimalMeaning(n: int)
    ensures ValueOf(Decimal(n)) == n
    ensures n >= 0 ==> IsNumeral(Decimal(n))
    ensures n < 0 ==> IsNumeral(Decimal(-n)) && Decimal(n) == "-" + Decimal(-n)
  {
    if n >= 0 {
      NaturalMeaning(n);
    } else {
      NaturalMeaning(-n);
      assert Decimal(n)[1..] == Decimal(-n);
    }
  }

  /** The status that an exit reason calls for. */
  function ReasonStatus(reason: ExitReason): ExitStatus {
    match reason
    case Exited(0) => OK
    case Exited(status) => RE("runtime error: return value " + Decimal(status))
    case Killed(signal) => RE("runtime error: killed by signal " + Decimal(signal))
  }

  /** The first entry of a log of verdicts that is not OK. */
  function FirstNonOk(log: seq<ExitStatus>): ExitStatus {
    if log == [] then OK
    else if log[0] != OK then log[0]
    else FirstNonOk(log[1..])
  }

  lemma {:induction false} FirstNonOkConcat(a: seq<ExitStatus>, b: seq<ExitStatus>)
    ensures FirstNonOk(a + b) == if FirstNonOk(a) != OK then FirstNonOk(a) else FirstNonOk(b)
  {
    if a == [] {
      assert a + b == b;
    } else {
      assert (a + b)[1..] == a[1..] + b;
      FirstNonOkConcat(a[1..], b);
    }
  }

  /** What a status becomes when another one is written over it. */
  function Sticky(current: ExitStatus, status: ExitStatus): ExitStatus {
    if current == OK then status else current
  }

  /** Sticky writing and appending to a log are the same thing. */
  lemma FirstNonOkNext(log: seq<ExitStatus>, status: ExitStatus)
    ensures FirstNonOk(log + [status]) == Sticky(FirstNonOk(log), status)
  {
    FirstNonOkConcat(log, [status]);
  }

  lemma {:induction false} FirstNonOkMeaning(log: seq<ExitStatus>)
    ensures FirstNonOk(log) == OK <==> forall i :: 0 <= i < |log| ==> log[i] == OK
    ensures FirstNonOk(log) != OK ==> FirstNonOk(log) in log
  {
    if log != [] {
      FirstNonOkMeaning(log[1..]);
      if FirstNonOk(log[1..]) == OK {
        assert forall i :: 1 <= i < |log| ==> log[i] == log[1..][i - 1];
      }
    }
  }

  /** The value of an ExecutionResult: durations in nanoseconds. */
  datatype Report = Report(
    exitStatus: ExitStatus,
    exitReason: ExitReason,
    realTime: Option<nat>,
    userTime: Option<nat>,
    systemTime: Option<nat>,
    instructionsUsed: Option<int>,
    measuredTime: Option<nat>,
    memoryUsageKibibytes: Option<nat>)

  const EMPTY_REPORT := Report(OK, Exited(0), None, None, None, None, None, None)

  class ExecutionResult {
    var exitStatus: ExitStatus
    var exitReason: ExitReason
    var realTime: Option<nat>
    var userTime: Option<nat>
    var systemTime: Option<nat>
    var instructionsUsed: Option<int>
    var measuredTime: Option<nat>
    var memoryUsageKibibytes: Option<nat>

    function View(): Report
      reads this
    {
      Report(exitStatus, exitReason, realTime, userTime, systemTime, instructionsUsed, measuredTime,
             memoryUsageKibibytes)
    }

    constructor ()
      ensures View() == EMPTY_REPORT
    {
      exitStatus, exitReason := OK, Exited(0);
      realTime, userTime, systemTime := None, None, None;
      instructionsUsed, measuredTime, memoryUsageKibibytes := None, None, None;
    }

    method SetExitStatus(status: ExitStatus)
      modifies this
      ensures View() == old(View()).(exitStatus := Sticky(old(exitStatus), status))
    {
      if exitStatus == OK {
        exitStatus := status;
      }
    }

    method SetExitReason(reason: ExitReason)
      modifies this
      ensures View() == old(View()).(
                exitReason := reason,
                exitStatus := Sticky(old(exitStatus), ReasonStatus(reason)))
    {
      exitReason := reason;
      match reason {
        case Exited(0) =>
        case Exited(status) =>
          SetExitStatus(RE("runtime error: return value " + Decimal(status)));
        case Killed(signal) =>
          SetExitStatus(RE("runtime error: killed by signal " + Decimal(signal)));
      }
    }

    method SetRealTime(duration: nat)
      modifies this
      ensures View() == old(View()).(realTime := Some(duration))
    {
      realTime := Some(duration);
    }

    method SetUserTime(duration: nat)
      modifies this
      ensures View() == old(View()).(userTime := Some(duration))
    {
      userTime := Some(duration);
    }

    method SetSystemTime(duration: nat)
      modifies this
      ensures View() == old(View()).(systemTime := Some(duration))
    {
      systemTime := Some(duration);
    }

    method SetInstructionsUsed(instructions: I64)
      modifies this
      ensures View() == old(View()).(
                instructionsUsed := Some(instructions),
                measuredTime := Some(MeasuredMillis(instructions) * 1_000_000))
    {
      instructionsUsed := Some(instructions);
      measuredTime := Some(MeasuredMillis(instructions) * 1_000_000);
    }

    method SetMemoryUsageKibibytes(peak: nat)
      modifies this
      ensures View() == old(View()).(memoryUsageKibibytes := Some(peak))
    {
      memoryUsageKibibytes := Some(peak);
    }
  }
}
