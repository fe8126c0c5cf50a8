/** The dashboard's copyable field: what it shows for a value, masked or not, and what it copies. */
module CopyField {
  import opened Text

  /** The mask character as the component's source spells it: the three characters U+00E2 U+20AC U+00A2. */
  const Bullet: string := "\U{E2}\U{20AC}\U{A2}"

  const MaskLength: nat := 24
  const ShownHead: nat := 8
  const ShownTail: nat := 4

  /** The text shown: nothing for an empty value, the value itself unmasked, else its head, the mask and its tail. */
  function Display(value: string, masked: bool): (r: string)
    ensures value == "" ==> r == ""
    ensures value != "" && !masked ==> r == value
    ensures value != "" && masked ==>
      var h := SliceFront(value, ShownHead);
      var t := SliceBack(value, ShownTail);
      |r| == |h| + |Bullet| * MaskLength + |t| && r[..|h|] == h && r[|r| - |t|..] == t &&
      r[|h|..|r| - |t|] == Repeat(Bullet, MaskLength)
  {
    if value == "" then ""
    else if masked then SliceFront(value, ShownHead) + Repeat(Bullet, MaskLength) + SliceBack(value, ShownTail)
    else value
  }

  /** `handleCopy`: the clipboard receives the value, whether or not it is masked on screen. */
  function CopyText(value: string, masked: bool): (r: string)
    ensures r == Display(value, false)
  {
    value
  }

  /**
   * The mask hides the middle: two values of at least twelve characters that agree on their first eight
   * and last four are shown alike, while the copy still tells them apart.
   */
  lemma MaskHidesMiddle(v1: string, v2: string)
    requires |v1| >= ShownHead + ShownTail && |v2| >= ShownHead + ShownTail
    requires v1[..ShownHead] == v2[..ShownHead] && v1[|v1| - ShownTail..] == v2[|v2| - ShownTail..]
    ensures Display(v1, true) == Display(v2, true)
    ensures v1 != v2 ==> CopyText(v1, true) != CopyText(v2, true)
  {
  }

  /** Masking shows at most twelve characters of the value and at least as many mask characters as the whole key. */
  lemma MaskedDisplayLength(value: string)
    requires value != ""
    ensures |Display(value, true)| <= ShownHead + |Bullet| * MaskLength + ShownTail
    ensures |Display(value, true)| > |Bullet| * MaskLength
  {
  }
}
