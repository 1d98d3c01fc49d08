/** The state of one PostCard component of components/social/PostCard.jsx:
    the post of the current render and the `useState` flags its handlers
    flip. */
module PostCardView {
  import opened Wrappers
  import opened PostText
  import opened Comments
  import opened Decimal

  datatype CommentItem = CommentItem(commentId: int, commentContent: string)

  /** The fields of `postData` this component computes with. */
  datatype Post = Post(content: Utf16Text, comments: Option<seq<CommentItem>>)

  class PostCard {
    const post: Post
    var isFullTextVisible: bool
    var isOpen: bool
    var showWarningAlert: bool

    /** A freshly mounted card: collapsed text, dialog and warning closed. */
    constructor (post: Post)
      ensures this.post == post
      ensures !isFullTextVisible && !isOpen && !showWarningAlert
    {
      this.post := post;
      isFullTextVisible := false;
      isOpen := false;
      showWarningAlert := false;
    }

    /** The text the card's paragraph shows. */
    function Paragraph(): (r: Utf16Text)
      reads this
      ensures r <= post.content
      ensures isFullTextVisible ==> r == post.content
      ensures !isFullTextVisible ==> |r| == if |post.content| > MaxTextLength then MaxTextLength else |post.content|
    {
      DisplayedText(post.content, isFullTextVisible)
    }

    /** The "see more" / "see less" button, when there is one. */
    function Toggle(): (b: Option<string>)
      reads this
      ensures b.Some? <==> |post.content| > MaxTextLength
      ensures b.Some? && isFullTextVisible ==> b.value == SeeLessLabel
      ensures b.Some? && !isFullTextVisible ==> b.value == SeeMoreLabel
    {
      ToggleButton(post.content, isFullTextVisible)
    }

    /** The comment button's text. */
    function CommentButton(): (r: string)
      ensures r == CommentWord <==> post.comments.None? || post.comments.value == []
      ensures post.comments.Some? && post.comments.value != [] ==>
                r == NatToString(|post.comments.value|) + " " + CommentWord
    {
      BareWordIffNoComments(post.comments);
      CommentLabel(CommentCount(post.comments))
    }

    /** `toggleFullText`: flips the expanded flag and nothing else. */
    method ToggleFullText()
      modifies this`isFullTextVisible
      ensures isFullTextVisible == !old(isFullTextVisible)
      ensures Paragraph() == DisplayedText(post.content, !old(isFullTextVisible))
    {
      isFullTextVisible := !isFullTextVisible;
    }

    /** `confirmDelete`: raises the deletion warning. */
    method ConfirmDelete()
      modifies this`showWarningAlert
      ensures showWarningAlert
    {
      showWarningAlert := true;
    }

    /** The warning's cancel and agree handlers both close it; agreeing
        then starts the deletion, which is not part of this model. */
    method DismissWarning()
      modifies this`showWarningAlert
      ensures !showWarningAlert
    {
      showWarningAlert := false;
    }

    /** Clicking the picture or the comment button opens the post dialog. */
    method OpenDialog()
      modifies this`isOpen
      ensures isOpen
    {
      isOpen := true;
    }

    /** The dialog's close button and its onClose close it. */
    method CloseDialog()
      modifies this`isOpen
      ensures !isOpen
    {
      isOpen := false;
    }
  }

  /** Toggling twice puts the card back as it was: the flag and the shown
      text are restored. */
  method ToggleTwiceRestores(card: PostCard)
    modifies card
    ensures card.isFullTextVisible == old(card.isFullTextVisible)
    ensures card.Paragraph() == old(card.Paragraph())
    ensures card.isOpen == old(card.isOpen) && card.showWarningAlert == old(card.showWarningAlert)
  {
    card.ToggleFullText();
    card.ToggleFullText();
  }
}
