/** Session ids: one text built from an envelope id and a process id by two different
    builders (`fmt.Sprintf` in the deliver handler, concatenation in the resume handler). */
module SessionIds {

  function Digit(d: nat): char
    requires d < 10
  {
    ('0' as int + d) as char
  }

  /** Decimal text of a number, as `%d` and `strconv.Itoa` print it. */
  function Itoa(n: int): string
    decreases n < 0, if n < 0 then -n else n
  {
    if n < 0 then "-" + Itoa(-n)
    else if n < 10 then [Digit(n)]
    else Itoa(n / 10) + [Digit(n % 10)]
  }

  function DigitValue(c: char): int {
    c as int - '0' as int
  }

  /** Reads decimal digits back. */
  function ParseDigits(s: string): int {
    if s == "" then 0 else ParseDigits(s[..|s| - 1]) * 10 + DigitValue(s[|s| - 1])
  }

  predicate AllDigits(s: string) {
    forall i :: 0 <= i < |s| ==> '0' <= s[i] <= '9'
  }

  lemma {:induction false} ItoaRoundTrip(n: nat)
    ensures Itoa(n) != "" && AllDigits(Itoa(n))
    ensures ParseDigits(Itoa(n)) == n
  {
    var s := Itoa(n);
    if n < 10 {
      assert s[..|s| - 1] == "";
    } else {
      ItoaRoundTrip(n / 10);
      assert s[..|s| - 1] == Itoa(n / 10);
    }
  }

  /** The two verbs the deliver handler's format uses. */
  datatype Arg = S(text: string) | D(number: int)

  /** `fmt.Sprintf` restricted to `%s` and `%d`; other text is copied. */
  function Sprintf(format: string, args: seq<Arg>): string {
    if format == "" then ""
    else if |format| > 1 && format[0] == '%' && args != [] && format[1] == 's' && args[0].S? then
      args[0].text + Sprintf(format[2..], args[1..])
    else if |format| > 1 && format[0] == '%' && args != [] && format[1] == 'd' && args[0].D? then
      Itoa(args[0].number) + Sprintf(format[2..], args[1..])
    else
      [format[0]] + Sprintf(format[1..], args)
  }

  /** The deliver handler's builder. */
  function DeliverSessionId(envelopeId: string, pid: int): string {
    Sprintf("session-%s-pid-%d", [S(envelopeId), D(pid)])
  }

  /** The resume handler's builder. */
  function SessionIdFromPid(envelopeId: string, pid: int): string {
    "session-" + envelopeId + "-pid-" + Itoa(pid)
  }

  lemma {:induction false} SprintfCopies(text: string, format: string, args: seq<Arg>)
    requires forall i :: 0 <= i < |text| ==> text[i] != '%'
    ensures Sprintf(text + format, args) == text + Sprintf(format, args)
  {
    if text == "" {
      assert text + format == format;
    } else {
      assert (text + format)[1..] == text[1..] + format;
      SprintfCopies(text[1..], format, args);
      assert text == [text[0]] + text[1..];
    }
  }

  lemma NumberVerb(pid: int)
    ensures Sprintf("-pid-%d", [D(pid)]) == "-pid-" + Itoa(pid)
  {
    SprintfCopies("-pid-", "%d", [D(pid)]);
    assert "-pid-" + "%d" == "-pid-%d" && "%d"[2..] == "";
    assert Sprintf("%d", [D(pid)]) == Itoa(pid) + "";
  }

  lemma TextVerb(envelopeId: string, pid: int)
    ensures Sprintf("%s-pid-%d", [S(envelopeId), D(pid)]) == envelopeId + ("-pid-" + Itoa(pid))
  {
    NumberVerb(pid);
    assert "%s-pid-%d"[2..] == "-pid-%d" && [S(envelopeId), D(pid)][1..] == [D(pid)];
  }

  /** Both builders spell the same id, so a session registered by one handler is
      found by the other. */
  lemma BuildersAgree(envelopeId: string, pid: int)
    ensures DeliverSessionId(envelopeId, pid) == SessionIdFromPid(envelopeId, pid)
    ensures SessionIdFromPid(envelopeId, pid) == "session-" + envelopeId + "-pid-" + Itoa(pid)
  {
    SprintfCopies("session-", "%s-pid-%d", [S(envelopeId), D(pid)]);
    assert "session-" + "%s-pid-%d" == "session-%s-pid-%d";
    TextVerb(envelopeId, pid);
    assert "session-" + (envelopeId + ("-pid-" + Itoa(pid))) == SessionIdFromPid(envelopeId, pid);
  }

  /** A digit run ends at the separator, so it cannot be split in two ways. */
  lemma DigitSuffixIsUnique(a: string, b: string, d1: string, d2: string)
    requires AllDigits(d1) && AllDigits(d2)
    requires a + "-" + d1 == b + "-" + d2
    ensures a == b && d1 == d2
  {
    var t := a + "-" + d1;
    assert t[|a|] == '-' && t[|b|] == '-' by {
      assert (a + "-" + d1)[|a|] == '-' && (b + "-" + d2)[|b|] == '-';
    }
    assert |a| == |b|;
    assert a == t[..|a|] == (b + "-" + d2)[..|b|] == b;
    assert d1 == t[|a| + 1..] == (b + "-" + d2)[|b| + 1..] == d2;
  }

  /** Ids are injective for positive process ids, whatever the envelope id contains. */
  lemma SessionIdsAreInjective(e1: string, p1: nat, e2: string, p2: nat)
    ensures SessionIdFromPid(e1, p1) == SessionIdFromPid(e2, p2) <==> e1 == e2 && p1 == p2
  {
    if SessionIdFromPid(e1, p1) == SessionIdFromPid(e2, p2) {
      var a, b := "session-" + e1 + "-pid", "session-" + e2 + "-pid";
      ItoaRoundTrip(p1);
      ItoaRoundTrip(p2);
      assert SessionIdFromPid(e1, p1) == a + "-" + Itoa(p1);
      assert SessionIdFromPid(e2, p2) == b + "-" + Itoa(p2);
      DigitSuffixIsUnique(a, b, Itoa(p1), Itoa(p2));
      assert e1 == a[8..|a| - 4] == b[8..|b| - 4] == e2;
    }
  }
}
