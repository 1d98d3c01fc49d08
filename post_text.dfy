/** The post body paragraph of components/social/PostCard.jsx: a long text
    is cut to its first 300 code units until the reader asks to see more.
    JavaScript measures and slices strings in UTF-16 code units, so the
    text is a sequence of those. */
module PostText {
  import opened Wrappers

  type CodeUnit = x: int | 0 <= x < 0x1_0000

  type Utf16Text = seq<CodeUnit>

  const MaxTextLength: nat := 300

  const SeeMoreLabel: string := "მეტის ნახვა"
  const SeeLessLabel: string := "ნახვა ნაკლები"

  /** `shouldShowSeeMore`: the text is longer than the cut. */
  predicate ShouldShowSeeMore(text: Utf16Text) {
    |text| > MaxTextLength
  }

  /** The paragraph's text: the first 300 code units while a long post is
      collapsed, the whole text otherwise. */
  function DisplayedText(text: Utf16Text, fullTextVisible: bool): (r: Utf16Text)
    ensures r <= text
    ensures !fullTextVisible ==> |r| <= MaxTextLength
    ensures !fullTextVisible && |text| > MaxTextLength ==> |r| == MaxTextLength
    ensures fullTextVisible || |text| <= MaxTextLength ==> r == text
  {
    if ShouldShowSeeMore(text) && !fullTextVisible then text[..MaxTextLength] else text
  }

  /** The toggle button: present only for a long text, offering "see more"
      while collapsed and "see less" while expanded. */
  function ToggleButton(text: Utf16Text, fullTextVisible: bool): (b: Option<string>)
    ensures b.Some? <==> |text| > MaxTextLength
    ensures b.Some? && fullTextVisible ==> b.value == SeeLessLabel
    ensures b.Some? && !fullTextVisible ==> b.value == SeeMoreLabel
  {
    if ShouldShowSeeMore(text) then
      Some(if fullTextVisible then SeeLessLabel else SeeMoreLabel)
    else
      None
  }

  /** The button is offered exactly when collapsing hides part of the text. */
  lemma SeeMoreExactlyWhenCut(text: Utf16Text)
    ensures ShouldShowSeeMore(text) <==> DisplayedText(text, false) != text
  {
  }

  /** Whatever the flag, the shown text begins the post, and the collapsed
      text is a prefix of the expanded one. */
  lemma CollapsedPrefixOfExpanded(text: Utf16Text)
    ensures DisplayedText(text, false) <= DisplayedText(text, true)
    ensures DisplayedText(text, true) == text
  {
  }
}
