/** IP rules and rule sets (iprule.go). */
module IPRules {
  /** `netip.Addr`: the zero value, an IPv4 or an IPv6 address as a number, the latter with its zone. */
  datatype IP = NoIP | V4(n: nat) | V6(n: nat, zone: string)

  datatype Prefix = Prefix(ip: IP, bits: nat)

  datatype Rule = Rule(prefix: Prefix, not: bool)

  const TWO_32 := 0x1_0000_0000
  const MAPPED := 0xffff

  function BitLen(ip: IP): nat {
    match ip
    case NoIP => 0
    case V4(_) => 32
    case V6(_, _) => 128
  }

  function Pow2(k: nat): nat { if k == 0 then 1 else 2 * Pow2(k - 1) }

  lemma {:induction false} Pow2Positive(k: nat)
    ensures Pow2(k) > 0
  {
    if k > 0 { Pow2Positive(k - 1); }
  }

  /** The first `bits` of an address. */
  function Top(ip: IP, bits: nat): int
    requires !ip.NoIP? && bits <= BitLen(ip)
  {
    Pow2Positive(BitLen(ip) - bits);
    ip.n / Pow2(BitLen(ip) - bits)
  }

  /** `netip.Addr.Unmap`. */
  function Unmap(ip: IP): IP {
    if ip.V6? && ip.n / TWO_32 == MAPPED then V4(ip.n % TWO_32) else ip
  }

  /** `netip.Prefix.Contains`: same family, no zone, equal leading bits. */
  predicate PrefixContains(p: Prefix, ip: IP) {
    && !p.ip.NoIP? && p.bits <= BitLen(p.ip) && BitLen(p.ip) == BitLen(ip)
    && (ip.V6? ==> ip.zone == "")
    && Top(p.ip, p.bits) == Top(ip, p.bits)
  }

  predicate RuleContains(r: Rule, ip: IP) { PrefixContains(r.prefix, Unmap(ip)) != r.not }

  /** A rule treats an IPv4-mapped address like the IPv4 address, whatever its zone; an IPv6 prefix has neither. */
  lemma RuleUnmaps(r: Rule, n: nat, zone: string)
    requires n < TWO_32
    ensures RuleContains(r, V6(MAPPED * TWO_32 + n, zone)) == RuleContains(r, V4(n))
    ensures r.prefix.ip.V6? ==> RuleContains(r, V4(n)) == r.not
  {
    assert (MAPPED * TWO_32 + n) / TWO_32 == MAPPED && (MAPPED * TWO_32 + n) % TWO_32 == n;
  }

  // ---- The verdict of a rule set ----

  /** Some include rule contains the address and no exclude rule's own test holds for it. */
  ghost predicate Verdict(rules: seq<Rule>, ip: IP) {
    && (exists r :: r in rules && !r.not && RuleContains(r, ip))
    && !(exists r :: r in rules && r.not && RuleContains(r, ip))
  }

  /** The verdict depends only on which rules are present: neither order nor repetition matters. */
  lemma VerdictUnordered(a: seq<Rule>, b: seq<Rule>, ip: IP)
    requires forall r :: r in a <==> r in b
    ensures Verdict(a, ip) <==> Verdict(b, ip)
  {
    if r :| r in a && !r.not && RuleContains(r, ip) { assert r in b; }
    if r :| r in b && !r.not && RuleContains(r, ip) { assert r in a; }
    if r :| r in a && r.not && RuleContains(r, ip) { assert r in b; }
    if r :| r in b && r.not && RuleContains(r, ip) { assert r in a; }
  }

  // ---- Which addresses that is ----

  /** The number lies in the `k`-th block of `size` numbers. */
  predicate InBlock(x: nat, k: nat, size: nat) { k * size <= x < k * size + size }

  ghost predicate ShareBlock(x: nat, y: nat, size: nat) { exists k: nat :: InBlock(x, k, size) && InBlock(y, k, size) }

  lemma BlockIs(x: nat, k: nat, size: nat)
    requires size > 0
    ensures InBlock(x, k, size) <==> x / size == k
  {
    var q, r := x / size, x % size;
    assert x == q * size + r;
    if k < q { BlocksApart(k, q, size); }
    if q < k { BlocksApart(q, k, size); }
  }

  lemma {:induction false} BlocksApart(j: nat, k: nat, size: nat)
    requires j < k
    ensures j * size + size <= k * size
    decreases k - j
  {
    assert (j + 1) * size == j * size + size;
    if j + 1 < k { BlocksApart(j + 1, k, size); }
  }

  lemma ShareIs(x: nat, y: nat, size: nat)
    requires size > 0
    ensures ShareBlock(x, y, size) <==> x / size == y / size
  {
    BlockIs(x, x / size, size);
    BlockIs(y, x / size, size);
    if k: nat :| InBlock(x, k, size) && InBlock(y, k, size) {
      BlockIs(x, k, size);
      BlockIs(y, k, size);
    }
  }

  /** The address is of the prefix's family, has no zone, and lies in the same block of 2^(width - bits) numbers. */
  ghost predicate Inside(p: Prefix, ip: IP) {
    match p.ip
    case NoIP => false
    case V4(n) => p.bits <= 32 && ip.V4? && ShareBlock(n, ip.n, Pow2(32 - p.bits))
    case V6(n, _) => p.bits <= 128 && ip.V6? && ip.zone == "" && ShareBlock(n, ip.n, Pow2(128 - p.bits))
  }

  lemma PrefixContainsExactly(p: Prefix, ip: IP)
    ensures PrefixContains(p, ip) <==> Inside(p, ip)
  {
    if !p.ip.NoIP? && !ip.NoIP? && p.bits <= BitLen(p.ip) {
      Pow2Positive(BitLen(p.ip) - p.bits);
      ShareIs(p.ip.n, ip.n, Pow2(BitLen(p.ip) - p.bits));
    }
  }

  /** An IPv4 address written as an IPv6 one. */
  predicate Mapped(ip: IP) { ip.V6? && 0xffff_0000_0000 <= ip.n < 0x1_0000_0000_0000 }

  /** The verdict on an address that is not mapped: inside some included prefix and inside every excluded one. */
  lemma VerdictExactly(rules: seq<Rule>, ip: IP)
    requires !Mapped(ip)
    ensures Verdict(rules, ip) <==>
              && (exists r :: r in rules && !r.not && Inside(r.prefix, ip))
              && (forall r :: r in rules && r.not ==> Inside(r.prefix, ip))
  {
    assert Unmap(ip) == ip;
    forall r: Rule ensures RuleContains(r, ip) <==> Inside(r.prefix, ip) != r.not {
      PrefixContainsExactly(r.prefix, ip);
    }
    if r :| r in rules && !r.not && Inside(r.prefix, ip) { assert RuleContains(r, ip); }
    if r :| r in rules && r.not && !Inside(r.prefix, ip) { assert RuleContains(r, ip); }
  }

  /** The verdict on a mapped address is the one on the IPv4 address it stands for. */
  lemma VerdictMapped(rules: seq<Rule>, ip: IP)
    requires Mapped(ip)
    ensures Verdict(rules, ip) <==> Verdict(rules, V4(ip.n - 0xffff_0000_0000))
  {
    assert Unmap(ip) == V4(ip.n - 0xffff_0000_0000) == Unmap(V4(ip.n - 0xffff_0000_0000));
    forall r: Rule ensures RuleContains(r, ip) == RuleContains(r, V4(ip.n - 0xffff_0000_0000)) {
    }
  }

  /** The rule 10.0.0.0/8 holds for 10.1.2.3 and not for 11.0.0.0. */
  lemma TenEight(r: Rule)
    requires r == Rule(Prefix(V4(0x0A00_0000), 8), false)
    ensures Verdict([r], V4(0x0A01_0203)) && !Verdict([r], V4(0x0B00_0000))
  {
    PowOf24();
    VerdictExactly([r], V4(0x0A01_0203));
    VerdictExactly([r], V4(0x0B00_0000));
    ShareIs(0x0A00_0000, 0x0A01_0203, 0x100_0000);
    ShareIs(0x0A00_0000, 0x0B00_0000, 0x100_0000);
    assert r in [r];
  }

  lemma PowOf24()
    ensures Pow2(24) == 0x100_0000
  {
    assert Pow2(8) == 256;
    assert Pow2(16) == 65536;
  }

  // ---- Adding and removing ----

  function AddRule(rules: seq<Rule>, r: Rule): seq<Rule> { if r in rules then rules else rules + [r] }

  /** Drop the first occurrence; everything behind it moves up. */
  function RemoveRule(rules: seq<Rule>, r: Rule): seq<Rule> {
    if rules == [] then [] else if rules[0] == r then rules[1..] else [rules[0]] + RemoveRule(rules[1..], r)
  }

  lemma {:induction false} RemoveAt(rules: seq<Rule>, r: Rule, i: nat)
    requires i < |rules| && rules[i] == r && r !in rules[..i]
    ensures RemoveRule(rules, r) == rules[..i] + rules[i + 1..]
  {
    if i > 0 {
      assert rules[0] in rules[..i];
      assert forall x :: x in rules[1..][..i - 1] ==> x in rules[..i];
      RemoveAt(rules[1..], r, i - 1);
      assert rules[..i] == [rules[0]] + rules[1..][..i - 1];
    }
  }

  lemma {:induction false} RemoveAbsent(rules: seq<Rule>, r: Rule)
    requires r !in rules
    ensures RemoveRule(rules, r) == rules
  {
    if rules != [] { RemoveAbsent(rules[1..], r); }
  }

  class IPRuleSet {
    var rules: seq<Rule>

    constructor ()
      ensures rules == []
    {
      rules := [];
    }

    /** The early-exit loop computes the order-free verdict. */
    method Contains(ip: IP) returns (ok: bool)
      ensures ok <==> Verdict(rules, ip)
    {
      ok := false;
      var i := 0;
      while i < |rules|
        invariant 0 <= i <= |rules|
        invariant ok <==> exists j :: 0 <= j < i && !rules[j].not && RuleContains(rules[j], ip)
        invariant forall j | 0 <= j < i && rules[j].not :: !RuleContains(rules[j], ip)
      {
        var r := rules[i];
        if r.not {
          if RuleContains(r, ip) { return false; }
        } else if !ok {
          ok := RuleContains(r, ip);
        }
        i := i + 1;
      }
    }

    method Add(r: Rule) returns (ok: bool)
      modifies this
      ensures rules == AddRule(old(rules), r) && (ok <==> r !in old(rules))
    {
      var i := 0;
      while i < |rules|
        invariant 0 <= i <= |rules| && r !in rules[..i]
      {
        if rules[i] == r { return false; }
        i := i + 1;
      }
      rules := rules + [r];
      ok := true;
    }

    /** The tail is copied one place down over the removed rule, then the last place is cut off. */
    method Remove(r: Rule) returns (ok: bool)
      modifies this
      ensures rules == RemoveRule(old(rules), r) && (ok <==> r in old(rules))
    {
      var i, n := 0, |rules|;
      while i < n
        invariant 0 <= i <= n == |rules| && r !in rules[..i]
      {
        if rules[i] == r {
          RemoveAt(rules, r, i);
          var shifted := rules[..i] + rules[i + 1..] + [rules[n - 1]];
          rules := shifted[..n - 1];
          return true;
        }
        i := i + 1;
      }
      RemoveAbsent(rules, r);
      ok := false;
    }
  }

  /** `Contains` on a possibly nil set. */
  method BlockedBy(set_: IPRuleSet?, ip: IP) returns (ok: bool)
    ensures ok <==> set_ != null && Verdict(set_.rules, ip)
  {
    if set_ == null { return false; }
    ok := set_.Contains(ip);
  }

  // ---- Every sequence of additions and removals ----

  datatype Op = Add(r: Rule) | Remove(r: Rule)

  function Apply(rules: seq<Rule>, op: Op): seq<Rule> {
    match op
    case Add(r) => AddRule(rules, r)
    case Remove(r) => RemoveRule(rules, r)
  }

  function Run(ops: seq<Op>): seq<Rule> {
    if ops == [] then [] else Apply(Run(ops[..|ops| - 1]), ops[|ops| - 1])
  }

  /** The mathematical set, each member with the operation that last inserted it. */
  function Births(ops: seq<Op>): map<Rule, nat> {
    if ops == [] then map[] else
    var n := |ops| - 1;
    var m := Births(ops[..n]);
    match ops[n]
    case Add(r) => if r in m then m else m[r := n]
    case Remove(r) => m - {r}
  }

  /** A list of the members of `births`, oldest first and each once. */
  ghost predicate InBirthOrder(rules: seq<Rule>, births: map<Rule, nat>) {
    && (forall r :: r in rules <==> r in births)
    && (forall i, j | 0 <= i < j < |rules| :: rules[i] in births && rules[j] in births
                                              && births[rules[i]] < births[rules[j]])
  }

  lemma CutMembers(rules: seq<Rule>, i: nat, births: map<Rule, nat>)
    requires InBirthOrder(rules, births) && i < |rules|
    ensures forall x :: x in rules[..i] + rules[i + 1..] <==> x in births - {rules[i]}
  {
    var r, rest := rules[i], rules[..i] + rules[i + 1..];
    forall x ensures x in rest <==> x in births - {r} {
      if x in rest {
        var a :| 0 <= a < |rest| && rest[a] == x;
        var b := if a < i then a else a + 1;
        assert rules[b] == x && b != i;
      }
    }
  }

  /** Cutting out one element of a list in order keeps the rest in order. */
  lemma CutKeepsOrder(rules: seq<Rule>, i: nat, births: map<Rule, nat>)
    requires InBirthOrder(rules, births) && i < |rules|
    ensures InBirthOrder(rules[..i] + rules[i + 1..], births - {rules[i]})
  {
    var r, rest := rules[i], rules[..i] + rules[i + 1..];
    CutMembers(rules, i, births);
    forall a, b | 0 <= a < b < |rest|
      ensures rest[a] in births - {r} && rest[b] in births - {r} && births[rest[a]] < births[rest[b]]
    {
      var a', b' := if a < i then a else a + 1, if b < i then b else b + 1;
      assert rest[a] == rules[a'] && rest[b] == rules[b'];
    }
  }

  lemma RemoveKeepsOrder(rules: seq<Rule>, r: Rule, births: map<Rule, nat>)
    requires InBirthOrder(rules, births)
    ensures InBirthOrder(RemoveRule(rules, r), births - {r})
  {
    if r in rules {
      var i :| 0 <= i < |rules| && rules[i] == r;
      assert forall a | 0 <= a < i :: births[rules[a]] < births[r];
      RemoveAt(rules, r, i);
      CutKeepsOrder(rules, i, births);
    } else {
      RemoveAbsent(rules, r);
      assert births - {r} == births;
    }
  }

  lemma AddKeepsOrder(rules: seq<Rule>, r: Rule, births: map<Rule, nat>, n: nat)
    requires InBirthOrder(rules, births) && forall x | x in births :: births[x] < n
    ensures InBirthOrder(AddRule(rules, r), if r in births then births else births[r := n])
  {
    if r !in rules {
      var more := births[r := n];
      assert forall i | 0 <= i < |rules| :: rules[i] in births && more[rules[i]] == births[rules[i]] < n;
      assert forall x :: x in rules + [r] <==> x in more;
    }
  }

  lemma {:induction false} BirthsBound(ops: seq<Op>)
    ensures forall r | r in Births(ops) :: Births(ops)[r] < |ops|
  {
    if ops != [] { BirthsBound(ops[..|ops| - 1]); }
  }

  /** From the empty set, any operations leave exactly the set's members, distinct, in order of insertion. */
  lemma {:induction false} RunKeepsOrder(ops: seq<Op>)
    ensures InBirthOrder(Run(ops), Births(ops))
  {
    if ops != [] {
      var n := |ops| - 1;
      var rules, births := Run(ops[..n]), Births(ops[..n]);
      RunKeepsOrder(ops[..n]);
      BirthsBound(ops[..n]);
      match ops[n]
      case Add(r) => AddKeepsOrder(rules, r, births, n);
      case Remove(r) => RemoveKeepsOrder(rules, r, births);
    }
  }
}
