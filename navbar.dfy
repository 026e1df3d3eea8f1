/**
 * The address chip of the navbar (src/components/ui/navbar/index.tsx): the
 * connected address shortened to its first six and last four characters.
 */
module Navbar {

  function Min(a: int, b: int): int
  {
    if a <= b then a else b
  }

  function Max(a: int, b: int): int
  {
    if a <= b then b else a
  }

  /** An argument of `substring` clamped into `[0, n]`. */
  function ClampIndex(x: int, n: nat): (r: nat)
    ensures r <= n
    ensures 0 <= x <= n ==> r == x
  {
    if x < 0 then 0 else if x > n then n else x
  }

  /** JavaScript's `s.substring(start, end)`: both ends clamped, swapped when out of order. */
  function Substring(s: string, start: int, end: int): string
  {
    var a, b := ClampIndex(start, |s|), ClampIndex(end, |s|);
    if a <= b then s[a..b] else s[b..a]
  }

  /**
   * The chip label: the substring from 0 to 6, three dots, the substring from
   * `length - 4` to the end. Under JavaScript's clamping that is the first
   * `min(6, n)` characters, `...`, then the last `min(4, n)`.
   */
  function AddressLabel(address: string): (r: string)
    ensures var n := |address|;
      r == address[..Min(6, n)] + "..." + address[Max(n - 4, 0)..]
  {
    Substring(address, 0, 6) + "..." + Substring(address, |address| - 4, |address|)
  }

  /** What the navbar shows for the account: the address chip, or the connect button. */
  datatype AccountView = AddressChip(text: string) | ConnectButton

  /**
   * What the navbar shows: the chip exactly when an address is connected (the
   * address is non-empty), labelled with the shortened address; otherwise the
   * button that connects the wallet.
   */
  function AccountViewOf(address: string): (r: AccountView)
    ensures r.AddressChip? <==> address != ""
    ensures r.AddressChip? ==> r.text == AddressLabel(address)
  {
    if address != "" then AddressChip(AddressLabel(address)) else ConnectButton
  }

  /**
   * The label keeps at most ten characters of the address: an address of ten
   * or more characters gives a label of 13, its first six characters, `...`,
   * and its last four.
   */
  lemma AddressLabelShape(address: string)
    ensures var n := |address|;
      |AddressLabel(address)| == Min(6, n) + 3 + Min(4, n)
    ensures var n := |address|; var lbl := AddressLabel(address);
      n >= 10 ==>
        && |lbl| == 13
        && lbl[..6] == address[..6]
        && lbl[6..9] == "..."
        && lbl[9..] == address[n - 4..]
  {
    var n := |address|;
    var lbl := AddressLabel(address);
    if n >= 10 {
      assert lbl == address[..6] + "..." + address[n - 4..];
    }
  }

  /** The label starts with the address's first characters and ends with its last ones, at any length. */
  lemma AddressLabelEnds(address: string)
    ensures var n := |address|; var lbl := AddressLabel(address);
      && lbl[..Min(6, n)] == address[..Min(6, n)]
      && lbl[|lbl| - Min(4, n)..] == address[n - Min(4, n)..]
  {
  }
}
