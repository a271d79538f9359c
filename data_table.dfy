/**
 * The photo column of the report table: each photo reference is classified
 * as a Drive link, a local image not yet uploaded, or nothing, and only the
 * classified slots are shown as numbered links.
 */
module DataTable {
  import opened Types
  import opened Text

  datatype LinkKind = Drive | Local

  /**
   * `getImageLinkType`: nothing for a null or empty reference, a Drive link
   * for one starting with "http" (tested first), a local image for one
   * starting with "data:image", nothing otherwise.
   */
  function LinkType(url: Option<string>): (r: Option<LinkKind>)
    ensures !Truthy(url) ==> r.None?
    ensures r == Some(Drive) <==> url.Some? && StartsWith(url.value, "http")
    ensures r == Some(Local) <==>
      url.Some? && !StartsWith(url.value, "http") && StartsWith(url.value, "data:image")
    ensures r.None? <==>
      url.None? || (!StartsWith(url.value, "http") && !StartsWith(url.value, "data:image"))
  {
    if !Truthy(url) then None
    else if StartsWith(url.value, "http") then Some(Drive)
    else if StartsWith(url.value, "data:image") then Some(Local)
    else None
  }

  /** A photo link as rendered: its 1-based slot number, its target and its kind. */
  datatype SlotLink = SlotLink(number: nat, href: string, kind: LinkKind)

  /** The links rendered for one photo row, in slot order. */
  function SlotLinks(photos: seq<Option<string>>): seq<SlotLink> {
    if photos == [] then []
    else
      var n := |photos| - 1;
      var kind := LinkType(photos[n]);
      SlotLinks(photos[..n]) + (if kind.Some? then [SlotLink(n + 1, photos[n].value, kind.value)] else [])
  }

  /** The links of a non-empty row: those of all but its last slot, then the last slot's, if any. */
  function LastSlotLinks(photos: seq<Option<string>>): seq<SlotLink>
    requires photos != []
  {
    var n := |photos| - 1;
    if LinkType(photos[n]).Some? then [SlotLink(n + 1, photos[n].value, LinkType(photos[n]).value)] else []
  }

  /**
   * Every link comes from a classified slot: it is labelled with the slot's
   * index plus one and carries the slot's reference and kind.
   */
  lemma {:induction false} SlotLinksSound(photos: seq<Option<string>>)
    ensures forall l :: l in SlotLinks(photos) ==>
      1 <= l.number <= |photos| && LinkType(photos[l.number - 1]) == Some(l.kind)
      && l.href == photos[l.number - 1].value
  {
    if photos != [] {
      var n := |photos| - 1;
      var init := photos[..n];
      SlotLinksSound(init);
      assert SlotLinks(photos) == SlotLinks(init) + LastSlotLinks(photos);
      assert forall i :: 0 <= i < n ==> init[i] == photos[i];
    }
  }

  /** Every classified slot gets its link. */
  lemma {:induction false} SlotLinksComplete(photos: seq<Option<string>>)
    ensures forall i :: 0 <= i < |photos| && LinkType(photos[i]).Some? ==>
      SlotLink(i + 1, photos[i].value, LinkType(photos[i]).value) in SlotLinks(photos)
  {
    if photos != [] {
      var n := |photos| - 1;
      var init := photos[..n];
      SlotLinksComplete(init);
      assert SlotLinks(photos) == SlotLinks(init) + LastSlotLinks(photos);
      assert forall i :: 0 <= i < n ==> init[i] == photos[i];
    }
  }

  /** The links appear in slot order. */
  lemma {:induction false} SlotLinksOrdered(photos: seq<Option<string>>)
    ensures forall a, b :: 0 <= a < b < |SlotLinks(photos)| ==>
      SlotLinks(photos)[a].number < SlotLinks(photos)[b].number
  {
    if photos != [] {
      var n := |photos| - 1;
      var init := photos[..n];
      SlotLinksOrdered(init);
      SlotLinksSound(init);
      assert SlotLinks(photos) == SlotLinks(init) + LastSlotLinks(photos);
      assert forall l :: l in SlotLinks(init) ==> l.number <= n;
    }
  }

  /** `photos.some(getImageLinkType)`. */
  predicate AnyLinked(photos: seq<Option<string>>) {
    exists i :: 0 <= i < |photos| && LinkType(photos[i]).Some?
  }

  /** "Tidak ada foto": neither row has a classified slot. */
  predicate NoPhotoNotice(p: Photos) {
    !AnyLinked(p.sebelum) && !AnyLinked(p.sesudah)
  }

  /** A row renders no link exactly when none of its slots is classified. */
  lemma NoLinksIffNoneClassified(photos: seq<Option<string>>)
    ensures SlotLinks(photos) == [] <==> !AnyLinked(photos)
  {
    SlotLinksSound(photos);
    SlotLinksComplete(photos);
    if AnyLinked(photos) {
      var i :| 0 <= i < |photos| && LinkType(photos[i]).Some?;
      assert SlotLink(i + 1, photos[i].value, LinkType(photos[i]).value) in SlotLinks(photos);
    }
    if SlotLinks(photos) != [] {
      var l := SlotLinks(photos)[0];
      assert LinkType(photos[l.number - 1]).Some?;
    }
  }

  /** The notice is shown exactly when no link at all is rendered for the report. */
  lemma NoticeIffNoLinks(p: Photos)
    ensures NoPhotoNotice(p) <==> SlotLinks(p.sebelum) == [] && SlotLinks(p.sesudah) == []
  {
    NoLinksIffNoneClassified(p.sebelum);
    NoLinksIffNoneClassified(p.sesudah);
  }

  /** A fresh report's empty photo rows show the notice. */
  lemma EmptyRowsShowNotice(n: nat)
    ensures NoPhotoNotice(Photos(seq(n, _ => None), seq(n, _ => None)))
  {
  }
}
