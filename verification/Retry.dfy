/** Which errors are retried, and when. */
module StatusText {
  import opened Machine

  datatype Error = NetError(timeout: bool) | TextError(text: string)

  const MAX_INT: int := 0x7FFF_FFFF_FFFF_FFFF

  // ---------------------------------------------------------------------------------------------
  // The string functions it is built from
  // ---------------------------------------------------------------------------------------------

  /** `strings.Index`: where `pat` occurs first. */
  function Index(s: string, pat: string): (r: Option<nat>)
    ensures match r
      case Some(i) => i <= |s| && pat <= s[i..] && forall j :: 0 <= j < i ==> !(pat <= s[j..])
      case None => forall j :: 0 <= j <= |s| ==> !(pat <= s[j..])
  {
    if pat <= s then Some(0)
    else if s == [] then None
    else
      assert forall j :: 1 <= j <= |s| ==> s[1..][j - 1..] == s[j..];
      match Index(s[1..], pat)
      case Some(i) => Some(i + 1)
      case None => None
  }

  /** `strings.IndexAny`: where a character of `chars` occurs first. */
  function IndexAny(s: string, chars: string): (r: Option<nat>)
    ensures match r
      case Some(i) => i < |s| && s[i] in chars && forall j :: 0 <= j < i ==> s[j] !in chars
      case None => forall j :: 0 <= j < |s| ==> s[j] !in chars
  {
    if s == [] then None
    else if s[0] in chars then Some(0)
    else match IndexAny(s[1..], chars) case Some(i) => Some(i + 1) case None => None
  }

  function TrimPrefix(s: string, prefix: string): string {
    if prefix <= s then s[|prefix|..] else s
  }

  predicate IsDigit(c: char) { '0' <= c <= '9' }

  function DigitsValue(s: string): nat
    requires forall c <- s :: IsDigit(c)
  {
    if s == [] then 0
    else
      assert IsDigit(s[|s| - 1]);
      10 * DigitsValue(s[..|s| - 1]) + (s[|s| - 1] as int - '0' as int)
  }

  /** `strconv.Atoi` on a 64-bit platform: an optional sign and at least one digit, within range. */
  function Atoi(s: string): Option<int> {
    var negative := s != [] && s[0] == '-';
    var digits := if s != [] && (s[0] == '-' || s[0] == '+') then s[1..] else s;
    if digits == [] || exists c <- digits :: !IsDigit(c) then None
    else
      var v: int := DigitsValue(digits);
      if negative then (if v <= MAX_INT + 1 then Some(-v) else None)
      else if v <= MAX_INT then Some(v) else None
  }

  /** How an HTTP status is printed. */
  function Decimal(n: nat): (s: string)
    ensures s != [] && forall c <- s :: IsDigit(c)
  {
    if n < 10 then [('0' as int + n) as char] else Decimal(n / 10) + [('0' as int + n % 10) as char]
  }

  lemma {:induction false} DecimalValue(n: nat)
    ensures DigitsValue(Decimal(n)) == n
  {
    if n >= 10 {
      DecimalValue(n / 10);
      var c := ('0' as int + n % 10) as char;
      assert (Decimal(n / 10) + [c])[..|Decimal(n / 10)|] == Decimal(n / 10);
    }
  }

  lemma AtoiDecimal(n: nat)
    requires n <= MAX_INT
    ensures Atoi(Decimal(n)) == Some(n)
  {
    DecimalValue(n);
    assert Decimal(n)[0] in Decimal(n);
  }

  // ---------------------------------------------------------------------------------------------
  // The classification
  // ---------------------------------------------------------------------------------------------

  const MARK: string := "status="
  const ENDS: string := "\" )"

  predicate RetryableStatus(code: int) { code >= 500 || code == 429 || code == 408 }

  /** The number at the start of what follows the mark. */
  function ParseCode(tail: string): Option<int> {
    var rest := TrimPrefix(tail, "\"");
    var end := IndexAny(rest, ENDS);
    Atoi(if end.Some? && end.value > 0 then rest[..end.value] else rest)
  }

  predicate IsRetryable(e: Error) {
    match e
    case NetError(timeout) => timeout
    case TextError(s) =>
      match Index(s, MARK)
      case None => false
      case Some(i) =>
        var code := ParseCode(s[i + |MARK|..]);
        code.Some? && RetryableStatus(code.value)
  }

  lemma MarkDiffers(s: string, j: nat, k: nat)
    requires j + k < |s| && k < |MARK| && s[j + k] != MARK[k]
    ensures !(MARK <= s[j..])
  {
    assert s[j..][k] == s[j + k];
  }

  lemma MarkInPrefix(prefix: string, rest: string, j: nat)
    requires j + |MARK| <= |prefix|
    ensures MARK <= (prefix + rest)[j..] <==> MARK <= prefix[j..]
  {
    assert (prefix + rest)[j..] == prefix[j..] + rest;
  }

  lemma LetterOfMark(prefix: string, tail: string, k: nat)
    requires k < |MARK|
    ensures (prefix + (MARK + tail))[|prefix| + k] == MARK[k]
  {}

  /** Shifted by less than its length, the mark differs from itself at this place. */
  lemma MarkShifted(d: nat)
    requires 0 < d < |MARK|
    ensures if d == 5 then MARK[6] != MARK[1] else MARK[d] != MARK[0]
  {
    assert MARK == ['s', 't', 'a', 't', 'u', 's', '='];
  }

  /** The mark cannot overlap itself, so it does not start inside a prefix free of it. */
  lemma NoEarlierMark(prefix: string, tail: string, j: nat)
    requires Index(prefix, MARK).None? && j < |prefix|
    ensures !(MARK <= (prefix + (MARK + tail))[j..])
  {
    var d := |prefix| - j;
    if d >= |MARK| {
      MarkInPrefix(prefix, MARK + tail, j);
    } else {
      var k := if d == 5 then 1 else 0;
      LetterOfMark(prefix, tail, k);
      MarkShifted(d);
      MarkDiffers(prefix + (MARK + tail), j, d + k);
    }
  }

  /** A text that starts with a prefix free of the mark has its first mark right after that prefix. */
  lemma FirstMark(prefix: string, tail: string)
    requires Index(prefix, MARK).None?
    ensures Index(prefix + MARK + tail, MARK) == Some(|prefix|)
  {
    var s := prefix + MARK + tail;
    assert s == prefix + (MARK + tail);
    assert s[|prefix|..] == MARK + tail;
    forall j | 0 <= j < |prefix| ensures !(MARK <= s[j..]) {
      NoEarlierMark(prefix, tail, j);
    }
  }

  lemma DigitsThenEnd(digits: string, suffix: string)
    requires forall c <- digits :: IsDigit(c)
    requires suffix == "" || suffix[0] in ENDS
    ensures IndexAny(digits + suffix, ENDS) == if suffix == "" then None else Some(|digits|)
  {
    var s := digits + suffix;
    assert forall j :: 0 <= j < |digits| ==> s[j] in digits;
    if suffix != "" {
      assert s[|digits|] in ENDS;
    }
  }

  /** What is parsed out of the text after the mark. */
  lemma PrintedStatusIsParsed(n: nat, quoted: bool, suffix: string)
    requires n <= MAX_INT
    requires suffix == "" || suffix[0] in ENDS
    ensures ParseCode((if quoted then "\"" else "") + Decimal(n) + suffix) == Some(n)
  {
    var digits := Decimal(n);
    var tail := (if quoted then "\"" else "") + digits + suffix;
    var rest := digits + suffix;
    TrimmedQuote(digits, suffix, quoted);
    DigitsThenEnd(digits, suffix);
    assert suffix == "" ==> rest == digits;
    assert rest[..|digits|] == digits;
    AtoiDecimal(n);
  }

  lemma TrimmedQuote(digits: string, suffix: string, quoted: bool)
    requires digits != "" && forall c <- digits :: IsDigit(c)
    ensures TrimPrefix((if quoted then "\"" else "") + digits + suffix, "\"") == digits + suffix
  {
    var tail := (if quoted then "\"" else "") + digits + suffix;
    assert digits[0] in digits;
    if quoted {
      assert tail == "\"" + (digits + suffix);
    } else {
      assert tail == digits + suffix;
      assert tail[0] != '\"';
    }
  }

  /** Round trip: a status printed into an error text, bare or quoted, is classified by its number, whatever text
      stands before (without another mark) and after it. */
  lemma PrintedStatusIsClassified(prefix: string, n: nat, quoted: bool, suffix: string)
    requires Index(prefix, MARK).None? && n <= MAX_INT
    requires suffix == "" || suffix[0] in ENDS
    ensures var text := prefix + MARK + ((if quoted then "\"" else "") + Decimal(n) + suffix);
      IsRetryable(TextError(text)) <==> n >= 500 || n == 429 || n == 408
  {
    var tail := (if quoted then "\"" else "") + Decimal(n) + suffix;
    FirstMark(prefix, tail);
    assert (prefix + MARK + tail)[|prefix| + |MARK|..] == tail;
    PrintedStatusIsParsed(n, quoted, suffix);
  }

  /** A network error is retried exactly on a timeout, and a text without the mark never is. */
  lemma OtherErrors(timeout: bool, text: string)
    ensures IsRetryable(NetError(timeout)) <==> timeout
    ensures (forall i :: 0 <= i <= |text| ==> !("status=" <= text[i..])) ==> !IsRetryable(TextError(text))
  {
    assert forall i :: 0 <= i <= |text| && "status=" <= text[i..] ==> MARK <= text[i..];
  }

  /** A mark that no number follows does not make a text retryable. */
  lemma UnreadableStatus(prefix: string, tail: string)
    requires Index(prefix, MARK).None?
    requires tail != "" && !IsDigit(tail[0]) && tail[0] !in "+-\""
    ensures !IsRetryable(TextError(prefix + "status=" + tail))
  {
    FirstMark(prefix, tail);
    assert (prefix + MARK + tail)[|prefix| + |MARK|..] == tail;
    assert !("\"" <= tail);
    NoNumber(tail);
    assert ParseCode(tail).None?;
  }

  lemma NoNumber(s: string)
    requires s != "" && !IsDigit(s[0]) && s[0] !in "+-"
    ensures Atoi(s).None?
    ensures forall k :: 0 < k <= |s| ==> Atoi(s[..k]).None?
  {
    assert s[0] in s;
    forall k | 0 < k <= |s| ensures Atoi(s[..k]).None? {
      assert s[..k][0] == s[0] && s[0] in s[..k];
    }
  }
}

/** Bounded retries with exponential backoff. */
module Retry {
  import opened Machine
  import opened StatusText

  /** Durations are in nanoseconds.  `scale` is what multiplying a duration by the multiplier and converting the
      product back to a duration yields; no theorem about all configurations restricts it, so it may round. */
  datatype RetryConfig = RetryConfig(maxRetries: int, initialBackoff: int, maxBackoff: int, scale: int -> int)

  /** The conversion of a float to a duration: truncation toward zero. */
  function Trunc(x: real): int { if x >= 0.0 then x.Floor else -((-x).Floor) }

  function MultiplyBy(multiplier: real): int -> int { (b: int) => Trunc(b as real * multiplier) }

  const SECOND: int := 1_000_000_000
  const DEFAULT := RetryConfig(5, SECOND, 30 * SECOND, MultiplyBy(2.0))

  datatype Outcome = Success | Failure(e: Error)

  datatype Verdict = Done | NotRetryable(e: Error) | ContextDone | Exhausted(last: Option<Error>)

  function Min(a: int, b: int): int { if a <= b then a else b }
  function Max(a: int, b: int): int { if a >= b then a else b }

  function NextBackoff(config: RetryConfig, backoff: int): int {
    Min(config.scale(backoff), config.maxBackoff)
  }

  /** The wait before retry number `k` (the first retry is number 0). */
  function Backoff(config: RetryConfig, k: nat): int {
    if k == 0 then config.initialBackoff else NextBackoff(config, Backoff(config, k - 1))
  }

  function TotalWait(config: RetryConfig, n: nat): int {
    if n == 0 then 0 else TotalWait(config, n - 1) + Backoff(config, n - 1)
  }

  /** When call number `k` has returned, if call `i` takes `took(i)`. */
  function Elapsed(config: RetryConfig, took: nat -> nat, k: nat): int {
    if k == 0 then took(0) else Elapsed(config, took, k - 1) + Max(Backoff(config, k - 1), 0) + took(k)
  }

  /** The wait that starts when call `k` has returned can only end with the context: its deadline comes first. */
  predicate CutShort(config: RetryConfig, took: nat -> nat, deadline: Option<int>, k: nat) {
    deadline.Some? && Backoff(config, k) > 0 && deadline.value < Elapsed(config, took, k) + Backoff(config, k)
  }

  /** The wait that starts when call `k` has returned may end with the context. */
  predicate MayCut(config: RetryConfig, took: nat -> nat, deadline: Option<int>, k: nat) {
    deadline.Some? && deadline.value <= Elapsed(config, took, k) + Max(Backoff(config, k), 0)
  }

  predicate Again(o: Outcome) { o.Failure? && IsRetryable(o.e) }

  /** How the select after each retryable failure can go: the context wins where the wait is cut short, and only
      where it can. */
  ghost predicate Timing(config: RetryConfig, took: nat -> nat, deadline: Option<int>, contextWins: nat -> bool) {
    forall k: nat ::
      && (CutShort(config, took, deadline, k) ==> contextWins(k))
      && (contextWins(k) ==> MayCut(config, took, deadline, k))
  }

  /** The retry loop.  `fn(i)` is what the i-th call returns; `contextWins(i)` is which side of the select ends the wait
      after it. */
  method RetryWithBackoff(config: RetryConfig, fn: nat -> Outcome, contextWins: nat -> bool)
      returns (verdict: Verdict, calls: nat, waits: seq<int>)
    ensures calls <= Max(config.maxRetries + 1, 0)
    ensures |waits| == Max(calls - 1, 0) && forall i :: 0 <= i < |waits| ==> waits[i] == Backoff(config, i)
    ensures forall i :: 0 <= i < calls - 1 ==> Again(fn(i)) && !contextWins(i)
    ensures match verdict
      case Done => calls > 0 && fn(calls - 1) == Success
      case NotRetryable(e) => calls > 0 && fn(calls - 1) == Failure(e) && !IsRetryable(e)
      case ContextDone => 0 < calls <= config.maxRetries && Again(fn(calls - 1)) && contextWins(calls - 1)
      case Exhausted(last) => calls == Max(config.maxRetries + 1, 0)
                              && if calls == 0 then last == None
                                 else Again(fn(calls - 1)) && last == Some(fn(calls - 1).e)
  {
    var lastErr: Option<Error> := None;
    var backoff := config.initialBackoff;
    waits := [];
    calls := 0;
    var attempt := 0;
    while attempt <= config.maxRetries
      invariant attempt == calls && (calls == 0 || calls <= config.maxRetries + 1)
      invariant backoff == Backoff(config, if calls == 0 then 0 else calls - 1)
      invariant |waits| == Max(calls - 1, 0) && forall i :: 0 <= i < |waits| ==> waits[i] == Backoff(config, i)
      invariant forall i :: 0 <= i < calls ==> Again(fn(i))
      invariant forall i :: 0 <= i < calls - 1 ==> !contextWins(i)
      invariant if calls == 0 then lastErr == None else lastErr == Some(fn(calls - 1).e)
      decreases config.maxRetries - attempt
    {
      if attempt > 0 {
        if contextWins(attempt - 1) {
          return ContextDone, calls, waits;
        }
        waits := waits + [backoff];
        backoff := config.scale(backoff);
        if backoff > config.maxBackoff {
          backoff := config.maxBackoff;
        }
      }
      var err := fn(attempt);
      calls := calls + 1;
      if err.Success? {
        return Done, calls, waits;
      }
      if !IsRetryable(err.e) {
        return NotRetryable(err.e), calls, waits;
      }
      lastErr := Some(err.e);
      attempt := attempt + 1;
    }
    return Exhausted(lastErr), calls, waits;
  }

  // ---------------------------------------------------------------------------------------------
  // The schedule
  // ---------------------------------------------------------------------------------------------

  function Pow2(k: nat): nat { if k == 0 then 1 else 2 * Pow2(k - 1) }

  ghost predicate Doubles(config: RetryConfig) { forall b: nat :: config.scale(b) == 2 * b }

  lemma MultiplierTwo(config: RetryConfig)
    requires config.scale == MultiplyBy(2.0)
    ensures Doubles(config)
  {
    forall b: nat ensures MultiplyBy(2.0)(b) == 2 * b {
      assert b as real * 2.0 == (2 * b) as real;
    }
  }

  /** With multiplier 2 the waits double up to the maximum; only the first wait is not capped. */
  lemma {:induction false} DoublingSchedule(config: RetryConfig, k: nat)
    requires Doubles(config) && config.initialBackoff >= 0 && config.maxBackoff >= 0
    ensures k == 0 ==> Backoff(config, k) == config.initialBackoff
    ensures k > 0 ==> Backoff(config, k) == Min(config.initialBackoff * Pow2(k), config.maxBackoff)
  {
    if k > 0 {
      DoublingSchedule(config, k - 1);
      Doubled(config.initialBackoff, Pow2(k - 1));
    }
  }

  lemma Doubled(a: nat, p: nat)
    ensures a * (2 * p) == 2 * (a * p) && a * p >= 0
  {}

  /** Whatever the multiplier, the waits of a whole run add up to at most the first plus the maximum for each other. */
  lemma {:induction false} TotalWaitBound(config: RetryConfig, n: nat)
    requires n >= 1
    ensures TotalWait(config, n) <= config.initialBackoff + (n - 1) * config.maxBackoff
  {
    if n > 1 {
      TotalWaitBound(config, n - 1);
      assert (n - 1) * config.maxBackoff == (n - 2) * config.maxBackoff + config.maxBackoff;
    } else {
      assert TotalWait(config, 1) == TotalWait(config, 0) + Backoff(config, 0);
    }
  }

  lemma DefaultWaits()
    ensures Backoff(DEFAULT, 0) == 1_000_000_000 && Backoff(DEFAULT, 1) == 2_000_000_000
    ensures Backoff(DEFAULT, 2) == 4_000_000_000 && Backoff(DEFAULT, 3) == 8_000_000_000
    ensures Backoff(DEFAULT, 4) == 16_000_000_000 && TotalWait(DEFAULT, 5) == 31_000_000_000
    ensures DEFAULT.maxRetries == 5 && DEFAULT.maxBackoff == 30_000_000_000
  {
    MultiplierTwo(DEFAULT);
    DoublingSchedule(DEFAULT, 0);
    DoublingSchedule(DEFAULT, 1);
    DoublingSchedule(DEFAULT, 2);
    DoublingSchedule(DEFAULT, 3);
    DoublingSchedule(DEFAULT, 4);
    assert Pow2(1) == 2 && Pow2(2) == 4 && Pow2(3) == 8 && Pow2(4) == 16;
    assert TotalWait(DEFAULT, 0) == 0;
    assert TotalWait(DEFAULT, 1) == SECOND;
    assert TotalWait(DEFAULT, 2) == 3 * SECOND;
    assert TotalWait(DEFAULT, 3) == 7 * SECOND;
    assert TotalWait(DEFAULT, 4) == 15 * SECOND;
  }

  lemma {:induction false} ElapsedCoversWaits(config: RetryConfig, took: nat -> nat, k: nat)
    ensures Elapsed(config, took, k) >= TotalWait(config, k)
  {
    if k > 0 {
      ElapsedCoversWaits(config, took, k - 1);
    }
  }

  /** With at most 30 seconds left the default configuration never makes its sixth attempt: the wait before it cannot
      end in time, even if the calls themselves take no time. */
  lemma NoSixthAttempt(took: nat -> nat, left: int)
    requires left <= 30_000_000_000
    ensures CutShort(DEFAULT, took, Some(left), 4)
  {
    DefaultWaits();
    ElapsedCoversWaits(DEFAULT, took, 4);
    assert TotalWait(DEFAULT, 5) == TotalWait(DEFAULT, 4) + Backoff(DEFAULT, 4);
  }

  /** A retried call of the pod cleanup, with `left` of its deadline left: at most five attempts, never exhausted. */
  method CleanupRetry(fn: nat -> Outcome, ghost took: nat -> nat, ghost left: int, contextWins: nat -> bool)
      returns (verdict: Verdict, calls: nat)
    requires left <= 30_000_000_000 && Timing(DEFAULT, took, Some(left), contextWins)
    ensures 1 <= calls <= 5
    ensures forall i :: 0 <= i < calls - 1 ==> Again(fn(i))
    ensures match verdict
      case Done => fn(calls - 1) == Success
      case NotRetryable(e) => fn(calls - 1) == Failure(e) && !IsRetryable(e)
      case ContextDone => Again(fn(calls - 1)) && MayCut(DEFAULT, took, Some(left), calls - 1)
      case Exhausted(_) => false
  {
    var waits;
    verdict, calls, waits := RetryWithBackoff(DEFAULT, fn, contextWins);
    NoSixthAttempt(took, left);
  }

  /** What the environment does to one retried call: results, durations, time left at its start, select outcomes. */
  datatype Script = Script(fn: nat -> Outcome, took: nat -> nat, left: int, contextWins: nat -> bool)

  ghost predicate CleanupScript(s: Script) {
    s.left <= 30_000_000_000 && Timing(DEFAULT, s.took, Some(s.left), s.contextWins)
  }

  /** The background removal of a deleted pod's runner: look the runner up, remove it if it is still registered.
      `found(i)` is whether a successful i-th lookup reports a runner; the two flags are the rate limiter's waits. */
  method RemoveRunnerFromGitHub(lookup: Script, found: nat -> bool, removal: Script, limiter1: bool, limiter2: bool)
      returns (ok: bool, lookups: nat, removals: nat)
    requires CleanupScript(lookup) && CleanupScript(removal)
    ensures lookups <= 5 && removals <= 5
    ensures lookups > 0 <==> limiter1
    ensures forall i :: 0 <= i < lookups - 1 ==> Again(lookup.fn(i))
    ensures forall i :: 0 <= i < removals - 1 ==> Again(removal.fn(i))
    ensures removals > 0 <==> limiter2 && lookups > 0 && lookup.fn(lookups - 1) == Success && found(lookups - 1)
    ensures ok <==> lookups > 0 && lookup.fn(lookups - 1) == Success
                    && (!found(lookups - 1) || (removals > 0 && removal.fn(removals - 1) == Success))
  {
    if !limiter1 {
      return false, 0, 0;
    }
    var verdict;
    verdict, lookups := CleanupRetry(lookup.fn, lookup.took, lookup.left, lookup.contextWins);
    if !verdict.Done? {
      return false, lookups, 0;
    }
    if !found(lookups - 1) {
      return true, lookups, 0;
    }
    if !limiter2 {
      return false, lookups, 0;
    }
    verdict, removals := CleanupRetry(removal.fn, removal.took, removal.left, removal.contextWins);
    ok := verdict.Done?;
  }
}
