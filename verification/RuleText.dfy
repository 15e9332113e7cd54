/** The text form of rules and rule files (iprule.go), over any codec for addresses and prefixes. */
module RuleText {
  import opened Basics
  import opened IPRules

  /** `netip`'s text forms. */
  datatype Codec = Codec(
    addrText: IP -> string,
    parseAddr: string -> Option<IP>,
    prefixText: Prefix -> string,
    parsePrefix: string -> Option<Prefix>)

  /** Prefixes a rule can hold and write down. */
  predicate ValidPrefix(p: Prefix) {
    !p.ip.NoIP? && p.ip.n < Pow2(BitLen(p.ip)) && p.bits <= BitLen(p.ip) && (p.ip.V6? ==> p.ip.zone == "")
  }

  predicate Single(p: Prefix) { ValidPrefix(p) && p.bits == BitLen(p.ip) }

  /** A word of a rule file: no blank, no line end, no comment or negation sign in front, and not too long. */
  predicate Word(s: string) {
    && 0 < |s| < SCAN_LIMIT - 1 && s[0] != '#' && s[0] != '!'
    && forall c | c in s :: !IsSpace(c)
  }

  /** The address text codec round-trips and writes words; only prefixes have a slash. */
  ghost predicate Faithful(c: Codec) {
    && (forall p: Prefix | Single(p) ::
          Word(c.addrText(p.ip)) && '/' !in c.addrText(p.ip) && c.parseAddr(c.addrText(p.ip)) == Some(p.ip))
    && (forall p: Prefix | ValidPrefix(p) && !Single(p) ::
          Word(c.prefixText(p)) && '/' in c.prefixText(p) && c.parsePrefix(c.prefixText(p)) == Some(p))
  }

  // ---- One rule ----

  datatype ParsedRule = Good(rule: Rule) | EmptyText | BadText

  function WithoutZone(ip: IP): IP { if ip.V6? then ip.(zone := "") else ip }

  /** `IPRule.UnmarshalText`. */
  function ParseRule(c: Codec, s: string): ParsedRule {
    if s == "" || s == "!" then EmptyText else
    var not := s[0] == '!';
    var t := if not then s[1..] else s;
    if '/' !in t then
      match c.parseAddr(t)
      case None => BadText
      case Some(ip) => Good(Rule(Prefix(WithoutZone(ip), BitLen(ip)), not))
    else
      match c.parsePrefix(t)
      case None => BadText
      case Some(p) => Good(Rule(p, not))
  }

  /** `IPRule.MarshalText`. */
  function RuleLine(c: Codec, r: Rule): string {
    var t := if Single(r.prefix) then c.addrText(r.prefix.ip) else c.prefixText(r.prefix);
    if r.not then "!" + t else t
  }

  lemma RuleLineParses(c: Codec, r: Rule)
    requires Faithful(c) && ValidPrefix(r.prefix)
    ensures ParseRule(c, RuleLine(c, r)) == Good(r)
  {
    var t := if Single(r.prefix) then c.addrText(r.prefix.ip) else c.prefixText(r.prefix);
    assert Word(t);
    assert ("!" + t)[1..] == t;
  }

  /** Exactly an empty text, or a lone negation sign, is an empty rule. */
  lemma EmptyExactly(c: Codec, s: string)
    ensures ParseRule(c, s) == EmptyText <==> s == "" || s == "!"
  {
  }

  /** A negation sign turns an include rule into the exclude rule of the same prefix, and mends nothing. */
  lemma NegationNegates(c: Codec, t: string)
    requires t != "" && t[0] != '!'
    ensures match ParseRule(c, t)
            case Good(r) => !r.not && ParseRule(c, "!" + t) == Good(Rule(r.prefix, true))
            case _ => ParseRule(c, "!" + t) == BadText
  {
    assert ("!" + t)[1..] == t;
  }

  /** A text with a slash is a rule exactly if the codec reads a prefix in it, and then of that prefix. */
  lemma SlashedIsPrefix(c: Codec, s: string, p: Prefix)
    requires s != "" && s[0] != '!' && '/' in s
    ensures ParseRule(c, s) == Good(Rule(p, false)) <==> c.parsePrefix(s) == Some(p)
    ensures ParseRule(c, s) == BadText <==> c.parsePrefix(s).None?
  {
  }

  /** A text without one is a rule exactly if the codec reads an address in it; the rule holds for that address alone. */
  lemma BareIsAddress(c: Codec, s: string, ip: IP, x: IP)
    requires s != "" && s[0] != '!' && '/' !in s
    ensures ParseRule(c, s) == BadText <==> c.parseAddr(s).None?
    ensures c.parseAddr(s) == Some(ip) && !ip.NoIP? ==>
              && ParseRule(c, s).Good? && !ParseRule(c, s).rule.not
              && (Inside(ParseRule(c, s).rule.prefix, x) <==>
                    x == if ip.V4? then ip else V6(ip.n, ""))
              && (ip.n < Pow2(BitLen(ip)) ==> Single(ParseRule(c, s).rule.prefix))
  {
    if c.parseAddr(s) == Some(ip) && !ip.NoIP? && !x.NoIP? {
      assert Pow2(0) == 1;
      ShareIs(ip.n, x.n, 1);
    }
  }

  // ---- Lines ----

  const SCAN_LIMIT := 65536

  predicate IsSpace(c: char) {
    c in {'\t', '\n', '\U{0B}', '\U{0C}', '\r', ' ', '\U{85}', '\U{A0}', '\U{1680}', '\U{2028}', '\U{2029}', '\U{202F}',
          '\U{205F}', '\U{3000}'}
    || '\U{2000}' <= c <= '\U{200A}'
  }

  /** White space by code point: the ASCII and Latin-1 blanks, and Unicode's space separators. */
  lemma SpaceExactly(c: char)
    ensures var n := c as int;
            IsSpace(c) <==>
              || 9 <= n <= 13 || n == 32 || n == 0x85 || n == 0xA0 || n == 0x1680 || 0x2000 <= n <= 0x200A
              || n == 0x2028 || n == 0x2029 || n == 0x202F || n == 0x205F || n == 0x3000
  {
  }

  function TrimLeft(s: string): string { if s != "" && IsSpace(s[0]) then TrimLeft(s[1..]) else s }

  function TrimRight(s: string): string {
    if s != "" && IsSpace(s[|s| - 1]) then TrimRight(s[..|s| - 1]) else s
  }

  function Trim(s: string): string { TrimRight(TrimLeft(s)) }

  predicate Blank(s: string) { forall c | c in s :: IsSpace(c) }

  /** No blank at either end. */
  predicate Bare(s: string) { s != "" ==> !IsSpace(s[0]) && !IsSpace(s[|s| - 1]) }

  lemma {:induction false} TrimsLeft(lead: string, s: string)
    requires Blank(lead) && (s != "" ==> !IsSpace(s[0]))
    ensures TrimLeft(lead + s) == s
  {
    if lead == "" {
      assert lead + s == s;
    } else {
      assert (lead + s)[0] == lead[0] && (lead + s)[1..] == lead[1..] + s;
      TrimsLeft(lead[1..], s);
    }
  }

  lemma {:induction false} TrimsRight(s: string, trail: string)
    requires Blank(trail) && (s != "" ==> !IsSpace(s[|s| - 1]))
    ensures TrimRight(s + trail) == s
  {
    if trail == "" {
      assert s + trail == s;
    } else {
      var n := |trail| - 1;
      assert (s + trail)[|s + trail| - 1] == trail[n] && (s + trail)[..|s + trail| - 1] == s + trail[..n];
      TrimsRight(s, trail[..n]);
    }
  }

  /** Trimming takes off the blanks at both ends and nothing else. */
  lemma TrimExactly(lead: string, core: string, trail: string)
    requires Blank(lead) && Blank(trail) && Bare(core)
    ensures Trim(lead + core + trail) == core
  {
    if core == "" {
      assert lead + core + trail == (lead + trail) + "";
      TrimsLeft(lead + trail, "");
    } else {
      assert lead + core + trail == lead + (core + trail);
      TrimsLeft(lead, core + trail);
      TrimsRight(core, trail);
    }
  }

  function LineEnd(s: string): (i: nat)
    ensures i <= |s|
  {
    if s == "" || s[0] == '\n' then 0 else 1 + LineEnd(s[1..])
  }

  lemma {:induction false} LineEndExactly(s: string)
    ensures var i := LineEnd(s); '\n' !in s[..i] && (i < |s| ==> s[i] == '\n')
  {
    if s != "" && s[0] != '\n' {
      LineEndExactly(s[1..]);
      var i := LineEnd(s);
      assert s[..i] == [s[0]] + s[1..][..i - 1];
    }
  }

  function DropCR(s: string): string { if s != "" && s[|s| - 1] == '\r' then s[..|s| - 1] else s }

  /** One carriage return at the end of a line goes with its line end. */
  lemma DropCRExactly(s: string, t: string)
    ensures DropCR(s) == t <==> s == t + "\r" || (s == t && (t == "" || t[|t| - 1] != '\r'))
  {
  }

  /** What follows the line end at `i`, if there is one. */
  function Behind(s: string, i: nat): string { if i < |s| then s[i + 1..] else "" }

  /** All lines of a text; a final line end starts no further line. */
  function Lines(s: string): seq<string>
    decreases |s|
  {
    if s == "" then [] else
    var i := LineEnd(s);
    [s[..i]] + Lines(Behind(s, i))
  }

  function Joined(lines: seq<string>): string {
    if lines == [] then "" else lines[0] + "\n" + Joined(lines[1..])
  }

  lemma LinesUnfold(s: string)
    requires s != ""
    ensures var i := LineEnd(s);
            Lines(s)[0] == s[..i] && Lines(s)[1..] == Lines(Behind(s, i))
  {
  }

  /** No line holds a line end. */
  lemma {:induction false} LinesWhole(s: string, k: nat)
    requires k < |Lines(s)|
    ensures '\n' !in Lines(s)[k]
    decreases |s|
  {
    LineEndExactly(s);
    LinesUnfold(s);
    if k > 0 {
      assert Lines(s)[k] == Lines(s)[1..][k - 1];
      LinesWhole(Behind(s, LineEnd(s)), k - 1);
    }
  }

  /** A text with its last line ended. */
  function Ended(s: string): string { if s == "" || s[|s| - 1] == '\n' then s else s + "\n" }

  lemma EndedTail(a: string, b: string)
    ensures Ended(a + "\n" + b) == a + "\n" + Ended(b)
  {
    var s := a + "\n" + b;
    assert b != "" ==> s[|s| - 1] == b[|b| - 1];
    assert s + "\n" == a + "\n" + (b + "\n");
  }

  /** Joined again, the lines are the text with its last line ended. */
  lemma {:induction false} LinesJoin(s: string)
    ensures Joined(Lines(s)) == Ended(s)
    decreases |s|
  {
    if s != "" {
      var i := LineEnd(s);
      LineEndExactly(s);
      if i < |s| {
        LinesUnfold(s);
        LinesJoin(s[i + 1..]);
        Divided(s, i);
        EndedTail(s[..i], s[i + 1..]);
      } else {
        OneLine(s);
      }
    }
  }

  lemma Divided(s: string, i: nat)
    requires i < |s| && s[i] == '\n'
    ensures s == s[..i] + "\n" + s[i + 1..]
  {
  }

  lemma OneLine(s: string)
    requires s != "" && LineEnd(s) == |s|
    ensures Joined(Lines(s)) == Ended(s)
  {
    LineEndExactly(s);
    assert s[..|s|] == s && s[|s| - 1] in s;
    assert Lines(s) == [s] && [s][1..] == [];
    assert s + "\n" + "" == s + "\n";
  }

  /** The lines the scanner yields: it stops, without an error anyone sees, at a line that fills its buffer. */
  function Scan(s: string): seq<string>
    decreases |s|
  {
    if s == "" then [] else
    var i := LineEnd(s);
    if i >= SCAN_LIMIT then [] else [DropCR(s[..i])] + Scan(Behind(s, i))
  }

  predicate Short(lines: seq<string>) { forall i | 0 <= i < |lines| :: |lines[i]| < 65536 }

  /** The lines in front of the first over-long one. */
  function Cut(lines: seq<string>): seq<string> {
    if lines == [] || |lines[0]| >= SCAN_LIMIT then [] else [DropCR(lines[0])] + Cut(lines[1..])
  }

  lemma {:induction false} ScanCuts(s: string)
    ensures Scan(s) == Cut(Lines(s))
    decreases |s|
  {
    if s != "" {
      var i := LineEnd(s);
      LinesUnfold(s);
      ScanCuts(Behind(s, i));
    }
  }

  lemma {:induction false} CutExactly(lines: seq<string>)
    ensures |Cut(lines)| <= |lines|
    ensures forall i | 0 <= i < |Cut(lines)| :: |lines[i]| < SCAN_LIMIT && Cut(lines)[i] == DropCR(lines[i])
    ensures |Cut(lines)| < |lines| ==> |lines[|Cut(lines)|]| >= SCAN_LIMIT
  {
    if lines != [] && |lines[0]| < SCAN_LIMIT { CutExactly(lines[1..]); }
  }

  /** The scanner yields exactly the lines in front of the first over-long one: all of them if there is none. */
  lemma ScanExactly(s: string)
    ensures var lines, scanned := Lines(s), Scan(s);
            && |scanned| <= |lines|
            && (forall i | 0 <= i < |scanned| :: scanned[i] == DropCR(lines[i]))
            && (|scanned| < |lines| ==> |lines[|scanned|]| >= SCAN_LIMIT)
            && (|scanned| == |lines| <==> Short(lines))
  {
    ScanCuts(s);
    CutExactly(Lines(s));
  }

  // ---- Rule files ----

  /** A line that is neither blank nor a comment. */
  predicate Meaningful(line: string) { Trim(line) != "" && Trim(line)[0] != '#' }

  /** What a line comes to: nothing, a rule, or an error. */
  function Reading(c: Codec, line: string): Option<ParsedRule> {
    if Meaningful(line) then Some(ParseRule(c, Trim(line))) else None
  }

  /** Blank lines and comments come to nothing, every other line to what its text without the blanks parses as. */
  lemma ReadingExactly(c: Codec, lead: string, core: string, trail: string)
    requires Blank(lead) && Blank(trail) && Bare(core)
    ensures Reading(c, lead + core + trail) == if core == "" || core[0] == '#' then None else Some(ParseRule(c, core))
  {
    TrimExactly(lead, core, trail);
  }

  function Readings(c: Codec, lines: seq<string>): seq<Option<ParsedRule>> {
    seq(|lines|, i requires 0 <= i < |lines| => Reading(c, lines[i]))
  }

  datatype Failure = Failure(line: nat, error: ParsedRule)

  predicate IsGood(r: Option<ParsedRule>) { r.Some? && r.value.Good? }
  predicate IsBad(r: Option<ParsedRule>) { r.Some? && !r.value.Good? }

  function GoodBefore(rs: seq<Option<ParsedRule>>, k: nat): nat
    requires k <= |rs|
  {
    if k == 0 then 0 else GoodBefore(rs, k - 1) + (if IsGood(rs[k - 1]) then 1 else 0)
  }

  function BadBefore(rs: seq<Option<ParsedRule>>, k: nat): nat
    requires k <= |rs|
  {
    if k == 0 then 0 else BadBefore(rs, k - 1) + (if IsBad(rs[k - 1]) then 1 else 0)
  }

  /** The first n lines' good readings are the rules, in order. */
  ghost predicate RulesAccount(rs: seq<Option<ParsedRule>>, n: nat, rules: seq<Rule>)
    requires n <= |rs|
  {
    && |rules| == GoodBefore(rs, n)
    && forall k | 0 <= k < n && IsGood(rs[k]) ::
         GoodBefore(rs, k) < |rules| && rs[k] == Some(Good(rules[GoodBefore(rs, k)]))
  }

  /** The first n lines' bad readings are the errors, in order, each with its zero-based line number. */
  ghost predicate ErrorsAccount(rs: seq<Option<ParsedRule>>, n: nat, errors: seq<Failure>)
    requires n <= |rs|
  {
    && |errors| == BadBefore(rs, n)
    && forall k | 0 <= k < n && IsBad(rs[k]) ::
         BadBefore(rs, k) < |errors| && Failure(k, rs[k].value) == errors[BadBefore(rs, k)]
  }

  ghost predicate AccountsTo(rs: seq<Option<ParsedRule>>, n: nat, rules: seq<Rule>, errors: seq<Failure>)
    requires n <= |rs|
  {
    RulesAccount(rs, n, rules) && ErrorsAccount(rs, n, errors)
  }

  /** Every meaningful line is accounted for by one rule or one error, in order, with its number. */
  ghost predicate Accounts(c: Codec, lines: seq<string>, rules: seq<Rule>, errors: seq<Failure>) {
    AccountsTo(Readings(c, lines), |lines|, rules, errors)
  }

  lemma RulesStep(rs: seq<Option<ParsedRule>>, n: nat, rules: seq<Rule>)
    requires n < |rs| && RulesAccount(rs, n, rules)
    ensures RulesAccount(rs, n + 1, if IsGood(rs[n]) then rules + [rs[n].value.rule] else rules)
  {
  }

  lemma ErrorsStep(rs: seq<Option<ParsedRule>>, n: nat, errors: seq<Failure>)
    requires n < |rs| && ErrorsAccount(rs, n, errors)
    ensures ErrorsAccount(rs, n + 1, if IsBad(rs[n]) then errors + [Failure(n, rs[n].value)] else errors)
  {
  }

  /** One turn of the loop of `UnmarshalText`. */
  method ReadLine(c: Codec, lines: seq<string>, i: nat, rules: seq<Rule>, errors: seq<Failure>)
    returns (rules': seq<Rule>, errors': seq<Failure>)
    requires i < |lines| && AccountsTo(Readings(c, lines), i, rules, errors)
    ensures AccountsTo(Readings(c, lines), i + 1, rules', errors')
  {
    ghost var rs := Readings(c, lines);
    RulesStep(rs, i, rules);
    ErrorsStep(rs, i, errors);
    var line := Trim(lines[i]);
    rules', errors' := rules, errors;
    if line != "" && line[0] != '#' {
      var r := ParseRule(c, line);
      if r.Good? {
        rules' := rules + [r.rule];
      } else {
        errors' := errors + [Failure(i, r)];
      }
    }
  }

  /** The loop of `IPRuleSet.UnmarshalText` over the scanned lines. */
  method ReadLines(c: Codec, lines: seq<string>) returns (rules: seq<Rule>, errors: seq<Failure>)
    ensures Accounts(c, lines, rules, errors)
  {
    rules, errors := [], [];
    var i := 0;
    while i < |lines|
      invariant 0 <= i <= |lines| && AccountsTo(Readings(c, lines), i, rules, errors)
    {
      rules, errors := ReadLine(c, lines, i, rules, errors);
      i := i + 1;
    }
  }

  /** `IPRuleSet.UnmarshalText`: what the set held before is forgotten, errors or not. */
  method UnmarshalText(target: IPRuleSet, c: Codec, text: string) returns (errors: seq<Failure>)
    modifies target
    ensures Accounts(c, Scan(text), target.rules, errors)
  {
    target.rules, errors := ReadLines(c, Scan(text));
  }

  /** The accounting leaves no freedom. */
  lemma AccountsUnique(c: Codec, lines: seq<string>, rules: seq<Rule>, errors: seq<Failure>,
                       rules': seq<Rule>, errors': seq<Failure>)
    requires Accounts(c, lines, rules, errors) && Accounts(c, lines, rules', errors')
    ensures rules == rules' && errors == errors'
  {
    var rs := Readings(c, lines);
    forall i | 0 <= i < |rules| ensures rules[i] == rules'[i] {
      var k := NthGood(rs, |rs|, i);
    }
    forall i | 0 <= i < |errors| ensures errors[i] == errors'[i] {
      var k := NthBad(rs, |rs|, i);
    }
  }

  lemma {:induction false} NthGood(rs: seq<Option<ParsedRule>>, n: nat, i: nat) returns (k: nat)
    requires n <= |rs| && i < GoodBefore(rs, n)
    ensures k < n && IsGood(rs[k]) && GoodBefore(rs, k) == i
    decreases n
  {
    if i < GoodBefore(rs, n - 1) { k := NthGood(rs, n - 1, i); } else { k := n - 1; }
  }

  lemma {:induction false} NthBad(rs: seq<Option<ParsedRule>>, n: nat, i: nat) returns (k: nat)
    requires n <= |rs| && i < BadBefore(rs, n)
    ensures k < n && IsBad(rs[k]) && BadBefore(rs, k) == i
    decreases n
  {
    if i < BadBefore(rs, n - 1) { k := NthBad(rs, n - 1, i); } else { k := n - 1; }
  }

  // ---- Writing and reading back ----

  /** `IPRuleSet.MarshalText`. */
  function Marshal(c: Codec, rules: seq<Rule>): string {
    if rules == [] then "" else RuleLine(c, rules[0]) + "\n" + Marshal(c, rules[1..])
  }

  lemma MarshalOne(c: Codec, rules: seq<Rule>, i: nat, text: string)
    requires i < |rules|
    ensures text + Marshal(c, rules[i..]) == text + RuleLine(c, rules[i]) + "\n" + Marshal(c, rules[i + 1..])
  {
    assert rules[i..][1..] == rules[i + 1..];
  }

  method MarshalText(c: Codec, rules: seq<Rule>) returns (text: string)
    ensures text == Marshal(c, rules)
  {
    text := "";
    var i := 0;
    while i < |rules|
      invariant 0 <= i <= |rules| && Marshal(c, rules) == text + Marshal(c, rules[i..])
    {
      MarshalOne(c, rules, i, text);
      text := text + RuleLine(c, rules[i]) + "\n";
      i := i + 1;
    }
    assert text + "" == text;
  }

  lemma {:induction false} FirstLine(line: string, tail: string)
    requires '\n' !in line
    ensures LineEnd(line + "\n" + tail) == |line|
  {
    var s := line + "\n" + tail;
    if line != "" {
      assert s[1..] == line[1..] + "\n" + tail;
      assert s[0] == line[0] && line[0] in line;
      FirstLine(line[1..], tail);
    }
  }

  lemma ScanFirst(line: string, tail: string)
    requires 0 < |line| < SCAN_LIMIT && '\n' !in line && line[|line| - 1] != '\r'
    ensures Scan(line + "\n" + tail) == [line] + Scan(tail)
  {
    FirstLine(line, tail);
    Halves(line, tail);
    ScanAt(line + "\n" + tail, |line|);
  }

  lemma Halves(line: string, tail: string)
    ensures var s := line + "\n" + tail;
            |s| == |line| + 1 + |tail| && s[..|line|] == line && s[|line| + 1..] == tail
  {
  }

  lemma ScanAt(s: string, i: nat)
    requires i < |s| && LineEnd(s) == i < SCAN_LIMIT
    ensures Scan(s) == [DropCR(s[..i])] + Scan(s[i + 1..])
  {
  }

  lemma RuleLineIsWord(c: Codec, r: Rule)
    requires Faithful(c) && ValidPrefix(r.prefix)
    ensures var l := RuleLine(c, r); 0 < |l| < SCAN_LIMIT && l[0] != '#' && forall x | x in l :: !IsSpace(x)
  {
    var t := if Single(r.prefix) then c.addrText(r.prefix.ip) else c.prefixText(r.prefix);
    assert Word(t);
  }

  lemma RuleLineScans(c: Codec, r: Rule, tail: string)
    requires Faithful(c) && ValidPrefix(r.prefix)
    ensures Scan(RuleLine(c, r) + "\n" + tail) == [RuleLine(c, r)] + Scan(tail)
  {
    var l := RuleLine(c, r);
    RuleLineIsWord(c, r);
    assert l[|l| - 1] in l && IsSpace('\n') && IsSpace('\r');
    ScanFirst(l, tail);
  }

  lemma {:induction false} ScanMarshalled(c: Codec, rules: seq<Rule>)
    requires Faithful(c) && forall i | 0 <= i < |rules| :: ValidPrefix(rules[i].prefix)
    ensures Scan(Marshal(c, rules)) == Written(c, rules)
  {
    if rules != [] {
      ScanMarshalled(c, rules[1..]);
      RuleLineScans(c, rules[0], Marshal(c, rules[1..]));
    }
  }

  /** The lines a rule list is written in. */
  function Written(c: Codec, rules: seq<Rule>): seq<string> {
    if rules == [] then [] else [RuleLine(c, rules[0])] + Written(c, rules[1..])
  }

  lemma {:induction false} WrittenAt(c: Codec, rules: seq<Rule>)
    ensures |Written(c, rules)| == |rules|
    ensures forall i | 0 <= i < |rules| :: Written(c, rules)[i] == RuleLine(c, rules[i])
  {
    if rules != [] { WrittenAt(c, rules[1..]); }
  }

  lemma {:induction false} AllGood(rs: seq<Option<ParsedRule>>, n: nat)
    requires n <= |rs| && forall i | 0 <= i < |rs| :: IsGood(rs[i])
    ensures GoodBefore(rs, n) == n && BadBefore(rs, n) == 0
  {
    if n > 0 { AllGood(rs, n - 1); }
  }

  lemma RuleLineReads(c: Codec, r: Rule)
    requires Faithful(c) && ValidPrefix(r.prefix)
    ensures Reading(c, RuleLine(c, r)) == Some(Good(r))
  {
    var l := RuleLine(c, r);
    RuleLineIsWord(c, r);
    RuleLineParses(c, r);
    assert l[0] in l && l[|l| - 1] in l;
  }

  /** Reading back a written list gives the same list and no errors. */
  lemma MarshalledAccounts(c: Codec, rules: seq<Rule>, read: seq<Rule>, errors: seq<Failure>)
    requires Faithful(c) && forall i | 0 <= i < |rules| :: ValidPrefix(rules[i].prefix)
    requires Accounts(c, Scan(Marshal(c, rules)), read, errors)
    ensures read == rules && errors == []
  {
    ScanMarshalled(c, rules);
    WrittenAt(c, rules);
    var rs := Readings(c, Scan(Marshal(c, rules)));
    assert |rs| == |rules|;
    forall i | 0 <= i < |rs| ensures rs[i] == Some(Good(rules[i])) {
      RuleLineReads(c, rules[i]);
    }
    forall i | 0 <= i <= |rs| ensures GoodBefore(rs, i) == i && BadBefore(rs, i) == 0 {
      AllGood(rs, i);
    }
    forall i | 0 <= i < |rs| ensures read[i] == rules[i] { assert IsGood(rs[i]); }
  }

  method RoundTrip(c: Codec, rules: seq<Rule>) returns (read: seq<Rule>, errors: seq<Failure>)
    requires Faithful(c) && forall i | 0 <= i < |rules| :: ValidPrefix(rules[i].prefix)
    ensures read == rules && errors == []
  {
    var text := MarshalText(c, rules);
    read, errors := ReadLines(c, Scan(text));
    MarshalledAccounts(c, rules, read, errors);
  }
}
