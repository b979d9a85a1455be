/** The Retry-After header: the wait it promises, its text, and reading that text back. */
module RetryAfters {
  import opened Window
  import opened Configs

  const MAX_INT: int := 0x7fff_ffff_ffff_ffff

  /** Whole seconds, rounded up. */
  function Seconds(wait: int): int
    requires wait > 0
  {
    (wait + SECOND - 1) / SECOND
  }

  /** The least whole number of seconds, never 0, that covers the wait. */
  lemma SecondsIsLeast(wait: int, secs: int)
    requires wait > 0
    ensures Seconds(wait) >= 1
    ensures secs >= Seconds(wait) <==> secs * SECOND >= wait
  {
  }

  function Digit(n: nat): char
    requires n < 10
  {
    ['0', '1', '2', '3', '4', '5', '6', '7', '8', '9'][n]
  }

  /** Decimal text of a natural number. */
  function Format(n: nat): (s: string)
    ensures s != []
  {
    if n < 10 then [Digit(n)] else Format(n / 10) + [Digit(n % 10)]
  }

  predicate IsDigit(c: char) { '0' <= c <= '9' }

  /** The number a text of digits spells, or none. */
  function Spelled(s: string): Option<nat> {
    if s == [] then Some(0)
    else
      var c := s[|s| - 1];
      var rest := Spelled(s[..|s| - 1]);
      if rest.None? || !IsDigit(c) then None else Some(10 * rest.value + (c - '0') as nat)
  }

  function Atoi(s: string): Option<int> {
    var signed := s != [] && (s[0] == '-' || s[0] == '+');
    var digits := if signed then s[1..] else s;
    var n := Spelled(digits);
    if digits == [] || n.None? then None
    else
      var v: int := if signed && s[0] == '-' then -(n.value as int) else n.value;
      if -MAX_INT - 1 <= v <= MAX_INT then Some(v) else None
  }

  function TrimLeft(s: string): string {
    if s != [] && IsSpace(s[0]) then TrimLeft(s[1..]) else s
  }

  function TrimSpace(s: string): string {
    var t := TrimLeft(s);
    TrimRight(t)
  }

  function TrimRight(s: string): string {
    if s != [] && IsSpace(s[|s| - 1]) then TrimRight(s[..|s| - 1]) else s
  }

  /** The delta-seconds form; 0 when absent, not a number, or not positive. */
  function ParseRetryAfter(h: string): (wait: int)
    ensures wait >= 0
  {
    var secs := Atoi(TrimSpace(h));
    if secs.Some? && secs.value > 0 then secs.value * SECOND else 0
  }

  lemma {:induction false} FormatSpells(n: nat)
    ensures Spelled(Format(n)) == Some(n)
    ensures forall c <- Format(n) :: IsDigit(c)
  {
    var s := Format(n);
    assert s[..|s| - 1] == if n < 10 then [] else Format(n / 10);
    if n >= 10 {
      FormatSpells(n / 10);
    }
  }

  lemma FormatParses(n: nat)
    requires 0 < n <= MAX_INT
    ensures ParseRetryAfter(Format(n)) == n * SECOND
  {
    FormatSpells(n);
    var s := Format(n);
    assert s[0] in s && s[|s| - 1] in s;
    assert TrimSpace(s) == s;
  }

  /** What a client that honours the header waits: never less than asked for, and less
      than one second more. */
  lemma RoundTripCovers(wait: int)
    requires 0 < wait <= MAX_INT
    ensures wait <= ParseRetryAfter(Format(Seconds(wait))) < wait + SECOND
  {
    SecondsIsLeast(wait, Seconds(wait));
    FormatParses(Seconds(wait));
  }

  lemma {:induction false} SpelledDigits(s: string)
    ensures Spelled(s).Some? <==> forall c <- s :: '0' <= c <= '9'
  {
    if s != [] {
      var n := |s| - 1;
      SpelledDigits(s[..n]);
      assert s[n] in s && forall c <- s[..n] :: c in s;
      assert forall c <- s :: c == s[n] || c in s[..n];
    }
  }

  /** Only a whole, positive number of seconds that fits is a wait; all else is none. */
  lemma OnlyNumbersWait(h: string)
    ensures ParseRetryAfter(h) > 0 ==>
              var t := TrimSpace(h);
              var digits := if t != [] && t[0] == '+' then t[1..] else t;
              && digits != [] && (forall c <- digits :: '0' <= c <= '9')
              && Spelled(digits).Some? && 0 < Spelled(digits).value <= MAX_INT
              && ParseRetryAfter(h) == Spelled(digits).value * 1_000_000_000
  {
    hide TrimSpace, Spelled;
    var t := TrimSpace(h);
    SpelledDigits(t);
    if t != [] {
      SpelledDigits(t[1..]);
    }
  }
}
