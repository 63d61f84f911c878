/**
 * twentyeleven_get_gallery_images: the image ids of a gallery post. The
 * host's gallery parsers and its attachment query are given as their
 * results: the `ids` attribute of the first gallery (None when it is not
 * set) from get_post_galleries or from the shortcode parser, and the ids of
 * the post's image attachments in menu order.
 */
module TwentyElevenGallery {
  import opened Php

  /** An id taken from a gallery's `ids` list (text) or from the attachment query. */
  datatype ImageId = Listed(text: string) | Attachment(id: nat)

  function ListedIds(parts: seq<string>): (ids: seq<ImageId>)
    ensures |ids| == |parts|
    ensures forall k :: 0 <= k < |parts| ==> ids[k] == Listed(parts[k])
  {
    seq(|parts|, k requires 0 <= k < |parts| => Listed(parts[k]))
  }

  function AttachmentIds(posts: seq<nat>): (ids: seq<ImageId>)
    ensures |ids| == |posts|
    ensures forall k :: 0 <= k < |posts| ==> ids[k] == Attachment(posts[k])
  {
    seq(|posts|, k requires 0 <= k < |posts| => Attachment(posts[k]))
  }

  /** The `ids` attribute the method consults, by which parser is available. */
  function GalleryIdsAttribute(postGalleriesAvailable: bool, galleryIds: Option<string>,
                               shortcodeIds: Option<string>): Option<string>
  {
    if postGalleriesAvailable then galleryIds else shortcodeIds
  }

  /**
   * The ids are the attribute split on commas, in order; the attachments are
   * used only when no attribute was set, because a split is never empty.
   */
  method GetGalleryImages(postGalleriesAvailable: bool, galleryIds: Option<string>,
                          shortcodeIds: Option<string>, attachments: seq<nat>)
    returns (images: seq<ImageId>)
    ensures var ids := GalleryIdsAttribute(postGalleriesAvailable, galleryIds, shortcodeIds);
      && (ids.Some? ==> images == ListedIds(Explode(',', ids.value)))
      && (ids.None? ==> images == AttachmentIds(attachments))
  {
    images := [];
    if postGalleriesAvailable {
      if galleryIds.Some? {
        images := ListedIds(Explode(',', galleryIds.value));
      }
    } else {
      if shortcodeIds.Some? {
        images := ListedIds(Explode(',', shortcodeIds.value));
      }
    }

    if |images| == 0 {
      images := AttachmentIds(attachments);
    }
  }

  /** Example: `ids="3,5,9"` yields the three ids in order. */
  lemma GalleryExample()
    ensures Explode(',', "3,5,9") == ["3", "5", "9"]
  {
    ExplodeJoin(',', ["3", "5", "9"]);
    assert Join(',', ["3", "5", "9"]) == "3,5,9";
  }
}
