/**
 * `extract_time_components`: a kubeconfig lifetime such as "2h" or "45m"
 * turned into seconds. The string is matched from its start against the
 * regular expression `(\d+)h(\d+)m|(\d+)h|(\d+)m`, whose alternatives are
 * tried in order; what follows the match is ignored.
 */
module Duration {
  import opened Wrappers
  import opened Text

  /** Length of the longest prefix of `s` made of decimal digits. */
  function DigitRun(s: string): (k: nat)
    ensures k <= |s|
    ensures forall i :: 0 <= i < k ==> IsDigit(s[i])
    ensures k < |s| ==> !IsDigit(s[k])
  {
    if s == [] || !IsDigit(s[0]) then 0 else 1 + DigitRun(s[1..])
  }

  lemma {:induction false} DigitRunOfDigitsThen(d: string, rest: string)
    requires forall i :: 0 <= i < |d| ==> IsDigit(d[i])
    requires rest != [] && !IsDigit(rest[0])
    ensures DigitRun(d + rest) == |d|
  {
    if d != [] {
      assert (d + rest)[1..] == d[1..] + rest;
      DigitRunOfDigitsThen(d[1..], rest);
    } else {
      assert d + rest == rest;
    }
  }

  /** The four capture groups of a successful match; a group that did not take part is None. */
  datatype Groups = Groups(g1: Option<string>, g2: Option<string>, g3: Option<string>, g4: Option<string>)

  /**
   * `re.match` of the pattern at the start of `s`. `\d+` is greedy and the
   * next character it must meet is not a digit, so each group is a maximal
   * run of digits.
   */
  function MatchAt(s: string): (m: Option<Groups>)
    ensures m.Some? <==> 0 < DigitRun(s) < |s| && (s[DigitRun(s)] == 'h' || s[DigitRun(s)] == 'm')
    ensures m.Some? ==> AllDigits(m.value.g1) && AllDigits(m.value.g2) && AllDigits(m.value.g3) && AllDigits(m.value.g4)
  {
    var k := DigitRun(s);
    if k == 0 || k == |s| then None
    else if s[k] == 'h' then
      var rest := s[k + 1..];
      var j := DigitRun(rest);
      if 0 < j < |rest| && rest[j] == 'm' then Some(Groups(Some(s[..k]), Some(rest[..j]), None, None))
      else Some(Groups(None, None, Some(s[..k]), None))
    else if s[k] == 'm' then Some(Groups(None, None, None, Some(s[..k])))
    else None
  }

  /** A count of minutes in seconds. */
  function SixtyTimes(n: nat): (r: nat)
    ensures r % 60 == 0
  {
    n * 60
  }

  /** Python's `a or b` on two optional strings: `a` when it is a non-empty string. */
  function Or(a: Option<string>, b: Option<string>): Option<string> {
    if a.Some? && a.value != "" then a else b
  }

  /** `int(g)` for a group, which holds digits only. */
  function GroupValue(g: string): nat
    requires forall i :: 0 <= i < |g| ==> IsDigit(g[i])
  {
    DigitsValue(g)
  }

  predicate AllDigits(g: Option<string>) {
    g.Some? ==> forall i :: 0 <= i < |g.value| ==> IsDigit(g.value[i])
  }

  /**
   * `extract_time_components(s)`. The conditional expression groups as
   * `H*3600 if hours else (0 + M*60 if minutes else 0)`, so when there are
   * hours the minutes play no part.
   */
  function ExtractTimeComponents(s: string): (r: Option<int>)
    ensures r.Some? <==> MatchAt(s).Some?
    ensures r.Some? ==> r.value >= 0 && r.value % 60 == 0
  {
    match MatchAt(s)
    case None => None
    case Some(g) =>
      var hours := Or(g.g1, g.g3);
      var minutes := Or(g.g2, g.g4);
      if hours.Some? then Some(SixtyTimes(GroupValue(hours.value) * 60))
      else if minutes.Some? then Some(0 + SixtyTimes(GroupValue(minutes.value)))
      else Some(0)
  }

  /** After "<H>h" the hour group holds H, whichever alternative matched. */
  lemma HoursGroup(d: string, tail: string)
    requires IsDigits(d)
    ensures MatchAt(d + "h" + tail).Some?
    ensures Or(MatchAt(d + "h" + tail).value.g1, MatchAt(d + "h" + tail).value.g3) == Some(d)
  {
    var s := d + "h" + tail;
    assert s == d + ("h" + tail);
    DigitRunOfDigitsThen(d, "h" + tail);
    assert s[..|d|] == d && s[|d|] == 'h';
  }

  /** "<H>h" followed by anything but "<M>m" gives H hours. */
  lemma HoursForm(d: string, tail: string)
    requires IsDigits(d)
    ensures ExtractTimeComponents(d + "h" + tail) == Some(DigitsValue(d) * 3600)
  {
    HoursGroup(d, tail);
    var n := DigitsValue(d);
    assert SixtyTimes(n * 60) == n * 3600;
  }

  /** "<M>m" matches the last alternative, with M in the minute group. */
  lemma MinutesGroup(d: string, tail: string)
    requires IsDigits(d)
    ensures MatchAt(d + "m" + tail) == Some(Groups(None, None, None, Some(d)))
  {
    var s := d + "m" + tail;
    assert s == d + ("m" + tail);
    DigitRunOfDigitsThen(d, "m" + tail);
    assert s[..|d|] == d && s[|d|] == 'm';
  }

  /** "<M>m" gives M minutes, however large M is. */
  lemma MinutesForm(d: string, tail: string)
    requires IsDigits(d)
    ensures ExtractTimeComponents(d + "m" + tail) == Some(DigitsValue(d) * 60)
    ensures TimeComponents(d + "m" + tail) == Some(DigitsValue(d) * 60)
  {
    MinutesGroup(d, tail);
  }

  /** Rendering a number of hours or minutes and parsing it back gives the seconds. */
  lemma {:induction false} RenderedHoursAndMinutes(n: nat)
    ensures ExtractTimeComponents(NatToString(n) + "h") == Some(n * 3600)
    ensures ExtractTimeComponents(NatToString(n) + "m") == Some(n * 60)
  {
    DigitsOfNatToString(n);
    HoursForm(NatToString(n), "");
    MinutesForm(NatToString(n), "");
    assert NatToString(n) + "h" + "" == NatToString(n) + "h";
    assert NatToString(n) + "m" + "" == NatToString(n) + "m";
  }

  /** "2h" and "2hours" both mean two hours: trailing text is dropped. */
  lemma HourExamples()
    ensures ExtractTimeComponents("2h") == Some(7200)
    ensures ExtractTimeComponents("2hours") == Some(7200)
  {
    var two := "2";
    HoursForm(two, "");
    assert two + "h" + "" == "2h";
    HoursForm(two, "ours");
    assert two + "h" + "ours" == "2hours";
  }

  /** "1h20m" means one hour: the minutes are dropped. */
  lemma HourAndMinutesExample()
    ensures ExtractTimeComponents("1h20m") == Some(3600)
  {
    var one := "1";
    HoursForm(one, "20m");
    assert one + "h" + "20m" == "1h20m";
  }

  lemma MinuteExamples()
    ensures ExtractTimeComponents("45m") == Some(2700)
    ensures ExtractTimeComponents("90m") == Some(5400)
    ensures ExtractTimeComponents("45mxyz") == Some(2700)
  {
    assert DigitsValue("45") == 45 by {
      assert "45"[..1] == "4";
    }
    assert DigitsValue("90") == 90 by {
      assert "90"[..1] == "9";
    }
    MinutesForm("45", "");
    assert "45" + "m" + "" == "45m";
    MinutesForm("90", "");
    assert "90" + "m" + "" == "90m";
    MinutesForm("45", "xyz");
    assert "45" + "m" + "xyz" == "45mxyz";
  }

  lemma RejectedExamples()
    ensures ExtractTimeComponents("") == None
    ensures ExtractTimeComponents("abc") == None
    ensures ExtractTimeComponents("h5") == None
  {
    assert DigitRun("abc") == 0;
    assert DigitRun("h5") == 0;
  }

  /**
   * As written, "<H>h<M>m" loses its minutes: "1h20m" gives 3600 where
   * 1 hour 20 minutes is 4800 seconds.
   */
  lemma CombinedFormDropsMinutes(h: string, m: string)
    requires IsDigits(h) && IsDigits(m)
    ensures ExtractTimeComponents(h + "h" + m + "m") == Some(DigitsValue(h) * 3600)
    ensures ExtractTimeComponents("1h20m") == Some(3600) != Some(4800)
  {
    HoursForm(h, m + "m");
    assert h + "h" + m + "m" == h + "h" + (m + "m");
    HourAndMinutesExample();
  }

  /** What the function is documented to compute: hours and minutes both counted. */
  function TimeComponents(s: string): (r: Option<int>)
    ensures r.Some? <==> MatchAt(s).Some?
    ensures r.Some? ==> r.value >= 0 && r.value % 60 == 0
  {
    match MatchAt(s)
    case None => None
    case Some(g) =>
      var hours := Or(g.g1, g.g3);
      var minutes := Or(g.g2, g.g4);
      Some(SixtyTimes((if hours.Some? then GroupValue(hours.value) * 60 else 0) +
                      (if minutes.Some? then GroupValue(minutes.value) else 0)))
  }

  /** "<H>h<M>m" takes the first alternative, with both groups filled. */
  lemma MatchOfCombinedForm(h: string, m: string)
    requires IsDigits(h) && IsDigits(m)
    ensures MatchAt(h + "h" + m + "m") == Some(Groups(Some(h), Some(m), None, None))
  {
    var s := h + "h" + m + "m";
    assert s == h + ("h" + m + "m");
    DigitRunOfDigitsThen(h, "h" + m + "m");
    assert s[..|h|] == h && s[|h|] == 'h';
    var rest := s[|h| + 1..];
    assert rest == m + "m";
    DigitRunOfDigitsThen(m, "m");
    assert rest[..|m|] == m;
  }

  /** The corrected parse counts both parts of "<H>h<M>m". */
  lemma CombinedFormCounted(h: string, m: string)
    requires IsDigits(h) && IsDigits(m)
    ensures TimeComponents(h + "h" + m + "m") == Some(DigitsValue(h) * 3600 + DigitsValue(m) * 60)
  {
    MatchOfCombinedForm(h, m);
    BothGroupsCounted(h + "h" + m + "m", h, m);
  }

  lemma BothGroupsCounted(s: string, h: string, m: string)
    requires IsDigits(h) && IsDigits(m)
    requires MatchAt(s) == Some(Groups(Some(h), Some(m), None, None))
    ensures TimeComponents(s) == Some(DigitsValue(h) * 3600 + DigitsValue(m) * 60)
  {
  }

  /** On every other input the corrected parse agrees with the one written. */
  lemma CorrectionOnlyTouchesCombinedForm(s: string)
    requires MatchAt(s).Some? ==> MatchAt(s).value.g2.None?
    ensures TimeComponents(s) == ExtractTimeComponents(s)
  {
  }
}
