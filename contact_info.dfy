/**
 * The contact section's phone line (formatPhone in components/ContactInfoSection.tsx):
 * the displayed number is the configured one with the first "+351 " removed.
 */
module ContactInfo {
  import opened Wrappers
  import opened Constants

  /** The Portuguese country prefix, with its trailing space, that the section leaves out. */
  const CountryPrefix: string := "+351 "

  /** `pat` occurs in `s` starting at index `i`. */
  predicate OccursAt(s: string, pat: string, i: int)
  {
    0 <= i && i + |pat| <= |s| && s[i..i + |pat|] == pat
  }

  /** The first index at or after `from` where `pat` occurs. */
  function IndexFrom(s: string, pat: string, from: nat): (r: Option<nat>)
    requires from <= |s|
    ensures r.Some? ==>
      from <= r.value && OccursAt(s, pat, r.value) && forall j :: from <= j < r.value ==> !OccursAt(s, pat, j)
    ensures r.None? ==> forall j :: from <= j ==> !OccursAt(s, pat, j)
    decreases |s| - from
  {
    if OccursAt(s, pat, from) then Some(from)
    else if from + |pat| >= |s| then None
    else IndexFrom(s, pat, from + 1)
  }

  /** `s.indexOf(pat)`: the first occurrence, if any. */
  function IndexOf(s: string, pat: string): (r: Option<nat>)
    ensures r.Some? ==> OccursAt(s, pat, r.value) && forall j :: 0 <= j < r.value ==> !OccursAt(s, pat, j)
    ensures r.None? ==> forall j :: !OccursAt(s, pat, j)
  {
    IndexFrom(s, pat, 0)
  }

  /** `s.replace(pat, rep)` with a string pattern: only the first occurrence is replaced. */
  function ReplaceFirst(s: string, pat: string, rep: string): string
  {
    match IndexOf(s, pat)
    case None => s
    case Some(i) => s[..i] + rep + s[i + |pat|..]
  }

  /** `formatPhone`. */
  function FormatPhone(phone: string): string
  {
    ReplaceFirst(phone, CountryPrefix, "")
  }

  /** A number that starts with the prefix loses exactly those five characters. */
  lemma FormatStripsLeadingPrefix(phone: string)
    requires |phone| >= 5 && phone[..5] == CountryPrefix
    ensures FormatPhone(phone) == phone[5..]
  {
    assert OccursAt(phone, CountryPrefix, 0);
  }

  /** A number without the prefix is shown unchanged. */
  lemma FormatWithoutPrefix(phone: string)
    requires forall j :: !OccursAt(phone, CountryPrefix, j)
    ensures FormatPhone(phone) == phone
  {
  }

  /**
   * With the prefix present, exactly one copy is removed, at its first occurrence: putting it
   * back there restores the input, and the result is five characters shorter.
   */
  lemma FormatRemovesFirstOnly(phone: string)
    requires IndexOf(phone, CountryPrefix).Some?
    ensures var i := IndexOf(phone, CountryPrefix).value;
      var shown := FormatPhone(phone);
      |shown| == |phone| - 5 &&
      shown[..i] + CountryPrefix + shown[i..] == phone &&
      forall j :: 0 <= j < i ==> !OccursAt(phone, CountryPrefix, j)
  {
    var i := IndexOf(phone, CountryPrefix).value;
    var shown := FormatPhone(phone);
    assert shown == phone[..i] + phone[i + 5..];
    assert shown[..i] == phone[..i];
    assert shown[i..] == phone[i + 5..];
    assert phone == phone[..i] + phone[i..i + 5] + phone[i + 5..];
  }

  /** The shop's number is shown as "912 345 678". */
  lemma ShopPhoneShown()
    ensures FormatPhone(ShopPhone()) == "912 345 678"
  {
    FormatStripsLeadingPrefix(ShopPhone());
  }
}
