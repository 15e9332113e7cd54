/**
 * A codec that meets what `RuleText` asks of `netip`'s: an address is its family and its number in
 * binary, a prefix is an address, a slash and as many ones as it has bits.
 */
module PlainText {
  import opened Basics
  import opened IPRules
  import opened RuleText

  /** The lowest `k` binary digits of a number, lowest first. */
  function Digits(n: nat, k: nat): string {
    if k == 0 then "" else [if n % 2 == 0 then '0' else '1'] + Digits(n / 2, k - 1)
  }

  function Number(s: string): nat {
    if s == "" then 0 else 2 * Number(s[1..]) + (if s[0] == '1' then 1 else 0)
  }

  lemma {:induction false} DigitsNumber(n: nat, k: nat)
    requires n < Pow2(k)
    ensures Number(Digits(n, k)) == n
  {
    if k > 0 { DigitsNumber(n / 2, k - 1); }
  }

  lemma {:induction false} DigitsPlain(n: nat, k: nat)
    ensures |Digits(n, k)| == k && forall c | c in Digits(n, k) :: c == '0' || c == '1'
  {
    if k > 0 { DigitsPlain(n / 2, k - 1); }
  }

  function Family(ip: IP): char { if ip.V4? then '4' else '6' }

  function Show(ip: IP): string { if ip.NoIP? then "" else [Family(ip)] + Digits(ip.n, BitLen(ip)) }

  function Read(s: string): Option<IP> {
    if s == "" then None
    else if s[0] == '4' then Some(V4(Number(s[1..])))
    else Some(V6(Number(s[1..]), ""))
  }

  function Ones(k: nat): string { seq(k, _ => '1') }

  function ShowPrefix(p: Prefix): string { Show(p.ip) + "/" + Ones(p.bits) }

  /** The part in front of the slash has a length that the family tells. */
  function ReadPrefix(s: string): Option<Prefix> {
    if s == "" then None
    else
      var at := 1 + (if s[0] == '4' then 32 else 128);
      if |s| <= at then None
      else
        match Read(s[..at])
        case None => None
        case Some(ip) => Some(Prefix(ip, |s| - at - 1))
  }

  const PLAIN := Codec(Show, Read, ShowPrefix, ReadPrefix)

  lemma ShowReads(ip: IP)
    requires !ip.NoIP? && ip.n < Pow2(BitLen(ip)) && (ip.V6? ==> ip.zone == "")
    ensures Read(Show(ip)) == Some(ip)
  {
    assert Show(ip)[1..] == Digits(ip.n, BitLen(ip));
    DigitsNumber(ip.n, BitLen(ip));
  }

  lemma ShowWord(ip: IP)
    requires !ip.NoIP?
    ensures |Show(ip)| == 1 + BitLen(ip) && Show(ip)[0] == Family(ip)
    ensures forall c | c in Show(ip) :: c == '0' || c == '1' || c == '4' || c == '6'
  {
    DigitsPlain(ip.n, BitLen(ip));
  }

  lemma ShowPrefixReads(p: Prefix)
    requires ValidPrefix(p)
    ensures ReadPrefix(ShowPrefix(p)) == Some(p)
  {
    var s, at := ShowPrefix(p), |Show(p.ip)|;
    ShowWord(p.ip);
    ShowReads(p.ip);
    assert s[0] == Show(p.ip)[0] && s[..at] == Show(p.ip);
  }

  lemma ShowPrefixWord(p: Prefix)
    requires ValidPrefix(p)
    ensures Word(ShowPrefix(p)) && '/' in ShowPrefix(p)
  {
    var s := ShowPrefix(p);
    ShowWord(p.ip);
    assert s[0] == Show(p.ip)[0] && s[|Show(p.ip)|] == '/';
  }

  /** `Faithful` is met. */
  lemma PlainIsFaithful()
    ensures Faithful(PLAIN)
  {
    forall p: Prefix | Single(p)
      ensures Word(PLAIN.addrText(p.ip)) && '/' !in PLAIN.addrText(p.ip)
      ensures PLAIN.parseAddr(PLAIN.addrText(p.ip)) == Some(p.ip)
    {
      ShowWord(p.ip);
      ShowReads(p.ip);
    }
    forall p: Prefix | ValidPrefix(p) && !Single(p)
      ensures Word(PLAIN.prefixText(p)) && '/' in PLAIN.prefixText(p)
      ensures PLAIN.parsePrefix(PLAIN.prefixText(p)) == Some(p)
    {
      ShowPrefixWord(p);
      ShowPrefixReads(p);
    }
  }
}
