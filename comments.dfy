/** The comment button of components/social/PostCard.jsx: the number of
    comments of a post and the label that shows it. */
module Comments {
  import opened Wrappers
  import opened Decimal

  const CommentWord: string := "კომენტარი"

  /** `commentCount`: 0 when the post has no comment list (undefined or
      null), the list's length otherwise. */
  function CommentCount<C>(comments: Option<seq<C>>): (n: nat)
    ensures n == 0 <==> comments.None? || comments.value == []
    ensures comments.Some? ==> n == |comments.value|
  {
    if comments.Some? then |comments.value| else 0
  }

  /** The button text: the bare word for no comments, the count and the
      word otherwise. */
  function CommentLabel(n: nat): (r: string)
    ensures r == CommentWord <==> n == 0
    ensures n > 0 ==> r == NatToString(n) + " " + CommentWord
  {
    if n == 0 then CommentWord else NatToString(n) + " " + CommentWord
  }

  /** The label shows no number exactly when the post has no comments,
      absent and empty lists alike. */
  lemma BareWordIffNoComments<C>(comments: Option<seq<C>>)
    ensures CommentLabel(CommentCount(comments)) == CommentWord
        <==> comments.None? || comments.value == []
  {
  }

  /** Different counts give different labels, so the label tells the
      reader the exact count. */
  lemma {:induction false} CommentLabelInjective(m: nat, n: nat)
    ensures CommentLabel(m) == CommentLabel(n) <==> m == n
  {
    if CommentLabel(m) == CommentLabel(n) && m > 0 && n > 0 {
      var tail := " " + CommentWord;
      assert CommentLabel(m) == NatToString(m) + tail;
      assert CommentLabel(n) == NatToString(n) + tail;
      SplitAtFirstSpace(NatToString(m), tail, NatToString(n), tail);
      NatToStringInjective(m, n);
    }
  }
}
