/**
 * twentyeleven_comment: the per-comment choices of the comment-list
 * callback. The markup itself, the avatar and the reply link are host
 * calls; what is modelled is which branch is taken, the avatar size, the
 * moderation note and the arguments handed to the reply link.
 */
module TwentyElevenComment {
  import opened Php

  /** The comment fields the callback reads, as the host stores them (strings). */
  datatype Comment = Comment(parent: string, commentType: string, approved: string)

  /** What the callback renders for one comment. */
  datatype CommentView =
    | PingbackEntry
    | FullComment(avatarSize: nat, moderationNote: Option<string>, replyArgs: map<string, Value>)

  const ShortNote: string := "Your comment is awaiting moderation."
  const PreviewNote: string :=
    "Your comment is awaiting moderation. This is a preview; your comment will be visible after it has been approved."

  /** The avatar is 68 pixels for top-level comments (parent "0") and 39 for replies. */
  function AvatarSize(parent: string): (size: nat)
    ensures size == 68 <==> parent == "0"
    ensures size == 39 <==> parent != "0"
  {
    if parent != "0" then 39 else 68
  }

  /** The note text depends on whether the current commenter's email is known. */
  function ModerationText(commenterEmail: string): (note: string)
    ensures note == ShortNote <==> Truthy(commenterEmail)
    ensures note == PreviewNote <==> !Truthy(commenterEmail)
  {
    if Truthy(commenterEmail) then ShortNote else PreviewNote
  }

  /** The note is shown only for comments pending approval (approved "0"). */
  function ModerationNote(approved: string, commenterEmail: string): (note: Option<string>)
    ensures note.Some? <==> approved == "0"
    ensures note.Some? ==> note.value == ModerationText(commenterEmail)
  {
    if approved == "0" then Some(ModerationText(commenterEmail)) else None
  }

  /**
   * The arguments of comment_reply_link: the callback's arguments merged
   * with the reply text, the depth and the maximum depth (null when the
   * callback was given none).
   */
  function ReplyArgs(args: map<string, Value>, depth: int): (merged: map<string, Value>)
    ensures merged.Keys == args.Keys + {"reply_text", "depth", "max_depth"}
    ensures merged["reply_text"] == Str("Reply <span>&darr;</span>")
    ensures merged["depth"] == Int(depth)
    ensures merged["max_depth"] == if "max_depth" in args then args["max_depth"] else Null
    ensures forall k :: k in args && k !in {"reply_text", "depth", "max_depth"} ==> merged[k] == args[k]
  {
    var maxDepth := if "max_depth" in args then args["max_depth"] else Null;
    args["reply_text" := Str("Reply <span>&darr;</span>")]["depth" := Int(depth)]["max_depth" := maxDepth]
  }

  predicate IsPingOrTrackback(commentType: string) {
    commentType == "pingback" || commentType == "trackback"
  }

  /** The callback for one comment at the given depth of the tree. */
  function RenderComment(comment: Comment, commenterEmail: string, args: map<string, Value>, depth: int)
    : (view: CommentView)
    ensures view.PingbackEntry? <==> IsPingOrTrackback(comment.commentType)
    ensures view.FullComment? ==>
      && view.avatarSize == AvatarSize(comment.parent)
      && view.moderationNote == ModerationNote(comment.approved, commenterEmail)
      && view.replyArgs == ReplyArgs(args, depth)
  {
    if IsPingOrTrackback(comment.commentType) then PingbackEntry
    else FullComment(AvatarSize(comment.parent),
                     ModerationNote(comment.approved, commenterEmail),
                     ReplyArgs(args, depth))
  }

  /**
   * A pending comment shows the preview note to a visitor whose email is
   * not stored, the short note otherwise, and no note once approved.
   */
  lemma PendingCommentNotes(comment: Comment, commenterEmail: string, args: map<string, Value>, depth: int)
    requires !IsPingOrTrackback(comment.commentType)
    ensures var view := RenderComment(comment, commenterEmail, args, depth);
      && (comment.approved == "0" && !Truthy(commenterEmail) ==> view.moderationNote == Some(PreviewNote))
      && (comment.approved == "0" && Truthy(commenterEmail) ==> view.moderationNote == Some(ShortNote))
      && (comment.approved != "0" ==> view.moderationNote == None)
  {
  }
}
