/**
  The hidden photo gallery: a modal that opens on the first photo, steps
  through the photos with wrap-around in both directions, resets its
  loading flag whenever the shown photo changes, and asks to be closed on
  Escape or a click on the backdrop.
 */
module SecretGallery {
  import opened Decimal

  /** The default `photoCount`. */
  const DefaultPhotoCount: nat := 10

  /** `goNext`: the following photo, wrapping from the last to the first. */
  function GoNext(i: nat, n: nat): (r: nat)
    requires n > 0
    ensures r < n
    ensures i < n ==> r == if i + 1 == n then 0 else i + 1
  {
    (i + 1) % n
  }

  /**
    `goPrev`: the preceding photo, wrapping from the first to the last.
    With `i >= 0` the dividend `i - 1 + n` is never negative, so the
    JavaScript remainder agrees with Dafny's.
   */
  function GoPrev(i: nat, n: nat): (r: nat)
    requires n > 0
    ensures r < n
    ensures i < n ==> r == if i == 0 then n - 1 else i - 1
  {
    (i - 1 + n) % n
  }

  /** Each direction undoes the other. */
  lemma PrevUndoesNext(i: nat, n: nat)
    requires 0 <= i < n
    ensures GoPrev(GoNext(i, n), n) == i
    ensures GoNext(GoPrev(i, n), n) == i
  {
  }

  /** Pressing "next" k times, starting from photo i. */
  function NextTimes(i: nat, k: nat, n: nat): (r: nat)
    requires i < n
    ensures r < n
  {
    if k == 0 then i else GoNext(NextTimes(i, k - 1, n), n)
  }

  /** Up to a full round, k presses of "next" advance the index by k, wrapping once past the end. */
  lemma {:induction false} NextTimesAdvances(i: nat, k: nat, n: nat)
    requires i < n && k <= n
    ensures NextTimes(i, k, n) == if i + k < n then i + k else i + k - n
  {
    if k > 0 {
      NextTimesAdvances(i, k - 1, n);
    }
  }

  /** Going all the way round returns to the start and not before. */
  lemma FullCycle(i: nat, n: nat)
    requires i < n
    ensures NextTimes(i, n, n) == i
    ensures forall k :: 0 < k < n ==> NextTimes(i, k, n) != i
  {
    NextTimesAdvances(i, n, n);
    forall k | 0 < k < n
      ensures NextTimes(i, k, n) != i
    {
      NextTimesAdvances(i, k, n);
    }
  }

  /** `getPhotoSrc`: `photos/photo-NN.jpg` under the base URL, numbered from 1 with at least two digits. */
  function PhotoSrc(base: string, i: nat): (r: string)
    ensures |r| >= |base| + 19 && r[..|base|] == base
    ensures r[|base|..|base| + 13] == "photos/photo-" && r[|r| - 4..] == ".jpg"
  {
    base + "photos/photo-" + PadStartZero(NatToString(i + 1), 2) + ".jpg"
  }

  /** The number in the file name: photos 1 to 9 get a leading zero, later ones print as they are. */
  lemma PhotoNumber(i: nat)
    ensures i < 9 ==> PadStartZero(NatToString(i + 1), 2) == ['0', DigitChar(i + 1)]
    ensures i >= 9 ==> PadStartZero(NatToString(i + 1), 2) == NatToString(i + 1)
  {
    if i < 9 {
      assert NatToString(i + 1) == [DigitChar(i + 1)];
    }
  }

  /** The first photo is `photo-01.jpg`, the tenth `photo-10.jpg`. */
  lemma PhotoNumberExamples()
    ensures PadStartZero(NatToString(1), 2) == "01"
    ensures PadStartZero(NatToString(10), 2) == "10"
  {
    PhotoNumber(0);
    PhotoNumber(9);
    assert NatToString(10) == NatToString(1) + [DigitChar(0)];
  }

  /** A fixed prefix and suffix determine the middle of a string. */
  lemma StripAffixes(pre: string, a: string, b: string, suf: string)
    requires pre + a + suf == pre + b + suf
    ensures a == b
  {
    var r := pre + a + suf;
    assert |a| == |b|;
    assert a == r[|pre|..|pre| + |a|];
    assert b == r[|pre|..|pre| + |b|];
  }

  /** Equal file names have equal padded numbers. */
  lemma PhotoSrcSameNumber(base: string, i: nat, j: nat)
    requires PhotoSrc(base, i) == PhotoSrc(base, j)
    ensures PadStartZero(NatToString(i + 1), 2) == PadStartZero(NatToString(j + 1), 2)
  {
    StripAffixes(base + "photos/photo-", PadStartZero(NatToString(i + 1), 2), PadStartZero(NatToString(j + 1), 2), ".jpg");
  }

  /** Different photos never share a file name. */
  lemma PhotoSrcInjective(base: string, i: nat, j: nat)
    requires PhotoSrc(base, i) == PhotoSrc(base, j)
    ensures i == j
  {
    PhotoSrcSameNumber(base, i, j);
    var m, k := i + 1, j + 1;
    assert PadStartZero(NatToString(m), 2) == PadStartZero(NatToString(k), 2);
    PaddedNumberInjective(m, k);
  }

  /** Padding a printed positive number to two digits keeps different numbers apart. */
  lemma PaddedNumberInjective(m: nat, k: nat)
    requires m > 0 && k > 0
    requires PadStartZero(NatToString(m), 2) == PadStartZero(NatToString(k), 2)
    ensures m == k
  {
    NoLeadingZero(m);
    NoLeadingZero(k);
    PadStartZeroInjective(NatToString(m), NatToString(k), 2);
    NatToStringInjective(m, k);
  }

  /** Whether the gallery is shown, which photo, and whether it is still loading. */
  datatype GalleryState = GalleryState(isOpen: bool, index: nat, loading: bool)

  const InitialGallery := GalleryState(false, 0, true)

  predicate GalleryInvariant(s: GalleryState, n: nat) {
    s.index < n
  }

  /** A new index; the effect keyed on the index sets `loading` only when it actually changed. */
  function ShowIndex(s: GalleryState, j: nat): (r: GalleryState)
    ensures r.index == j && r.isOpen == s.isOpen
    ensures r.loading == (j != s.index || s.loading)
  {
    s.(index := j, loading := if j != s.index then true else s.loading)
  }

  /** The `isOpen` prop changes; opening shows the first photo. */
  function SetOpen(s: GalleryState, open: bool): (r: GalleryState)
    ensures r.isOpen == open
    ensures open && !s.isOpen ==> r.index == 0
    ensures open == s.isOpen ==> r == s
    ensures !open ==> r.index == s.index
  {
    if open == s.isOpen then s
    else if open then ShowIndex(s.(isOpen := true), 0)
    else s.(isOpen := false)
  }

  function Next(s: GalleryState, n: nat): (r: GalleryState)
    requires n > 0
    ensures r.isOpen == s.isOpen && r.index == GoNext(s.index, n)
  {
    ShowIndex(s, GoNext(s.index, n))
  }

  function Prev(s: GalleryState, n: nat): (r: GalleryState)
    requires n > 0
    ensures r.isOpen == s.isOpen && r.index == GoPrev(s.index, n)
  {
    ShowIndex(s, GoPrev(s.index, n))
  }

  /** The photo's `onLoad`. */
  function PhotoLoaded(s: GalleryState): (r: GalleryState)
    ensures r == s.(loading := false)
  {
    s.(loading := false)
  }

  /** The window keydown listener, registered only while open; the boolean is the `onClose` request. */
  function Key(s: GalleryState, key: string, n: nat): (r: (GalleryState, bool))
    requires n > 0
    ensures r.1 <==> s.isOpen && key == "Escape"
    ensures !s.isOpen ==> r.0 == s
    ensures s.isOpen && key == "ArrowLeft" ==> r.0 == Prev(s, n)
    ensures s.isOpen && key == "ArrowRight" ==> r.0 == Next(s, n)
    ensures !(s.isOpen && (key == "ArrowLeft" || key == "ArrowRight")) ==> r.0 == s
  {
    if !s.isOpen then (s, false)
    else if key == "Escape" then (s, true)
    else if key == "ArrowLeft" then (Prev(s, n), false)
    else if key == "ArrowRight" then (Next(s, n), false)
    else (s, false)
  }

  /**
    The element a click lands on, as `e.target` reports it: the dialog
    element itself (its backdrop, outside the modal box), one of the two
    arrow buttons, or any other element inside the modal box.
   */
  datatype ClickTarget = Backdrop | PrevArrow | NextArrow | ModalContent

  /**
    A click while open: an arrow's own `onClick` steps first, then the
    click bubbles to the dialog's `handleBackdropClick`, which asks to close
    only when the target is the dialog itself. Nothing is drawn while closed.
   */
  function Click(s: GalleryState, target: ClickTarget, n: nat): (r: (GalleryState, bool))
    requires n > 0
    ensures r.1 <==> s.isOpen && target == Backdrop
    ensures s.isOpen && target == PrevArrow ==> r.0 == Prev(s, n)
    ensures s.isOpen && target == NextArrow ==> r.0 == Next(s, n)
    ensures target == Backdrop || target == ModalContent || !s.isOpen ==> r.0 == s
  {
    if !s.isOpen then (s, false)
    else match target
      case Backdrop => (s, true)
      case PrevArrow => (Prev(s, n), false)
      case NextArrow => (Next(s, n), false)
      case ModalContent => (s, false)
  }

  /** Clicking an arrow button and pressing the matching arrow key have the same effect. */
  lemma ArrowClickMatchesKey(s: GalleryState, n: nat)
    requires n > 0
    ensures Click(s, PrevArrow, n) == Key(s, "ArrowLeft", n)
    ensures Click(s, NextArrow, n) == Key(s, "ArrowRight", n)
  {
  }

  lemma GalleryInvariantKept(s: GalleryState, n: nat, open: bool, key: string)
    requires n > 0 && GalleryInvariant(s, n)
    ensures GalleryInvariant(InitialGallery, n)
    ensures GalleryInvariant(SetOpen(s, open), n)
    ensures GalleryInvariant(Next(s, n), n) && GalleryInvariant(Prev(s, n), n)
    ensures GalleryInvariant(PhotoLoaded(s), n)
    ensures GalleryInvariant(Key(s, key, n).0, n)
    ensures forall t :: GalleryInvariant(Click(s, t, n).0, n)
  {
  }

  /** Moving to a different photo always shows the loader until that photo loads. */
  lemma MovingShowsLoader(s: GalleryState, n: nat)
    requires n > 1 && GalleryInvariant(s, n)
    ensures Next(s, n).loading && Prev(s, n).loading
    ensures !PhotoLoaded(Next(s, n)).loading
  {
  }

  /** With one photo, stepping leaves the index alone and so does not reset the loader. */
  lemma SinglePhotoKeepsLoaded(s: GalleryState)
    requires GalleryInvariant(s, 1) && !s.loading
    ensures Next(s, 1) == s && Prev(s, 1) == s
  {
  }

  /** Reopening always starts from the first photo, wherever it was closed. */
  lemma ReopenStartsAtFirst(s: GalleryState, n: nat)
    requires n > 0 && s.isOpen && GalleryInvariant(s, n)
    ensures SetOpen(SetOpen(s, false), true).index == 0
  {
  }

  /** The gallery as a component: the photo count is fixed, the rest changes in place. */
  class Gallery {
    const photoCount: nat
    var isOpen: bool
    var index: nat
    var loading: bool

    function State(): GalleryState
      reads this
    {
      GalleryState(isOpen, index, loading)
    }

    ghost predicate Valid()
      reads this
    {
      photoCount > 0 && GalleryInvariant(State(), photoCount)
    }

    constructor(photoCount: nat)
      requires photoCount > 0
      ensures this.photoCount == photoCount && State() == InitialGallery && Valid()
    {
      this.photoCount := photoCount;
      isOpen, index, loading := false, 0, true;
    }

    method SetIndex(j: nat)
      modifies this
      ensures State() == ShowIndex(old(State()), j)
    {
      if j != index {
        loading := true;
      }
      index := j;
    }

    method OnOpenChange(open: bool)
      requires Valid()
      modifies this
      ensures State() == SetOpen(old(State()), open) && Valid()
    {
      if open == isOpen {
        return;
      }
      isOpen := open;
      if open {
        SetIndex(0);
      }
    }

    method OnNext()
      requires Valid()
      modifies this
      ensures State() == Next(old(State()), photoCount) && Valid()
    {
      SetIndex((index + 1) % photoCount);
    }

    method OnPrev()
      requires Valid()
      modifies this
      ensures State() == Prev(old(State()), photoCount) && Valid()
    {
      SetIndex((index - 1 + photoCount) % photoCount);
    }

    method OnPhotoLoaded()
      requires Valid()
      modifies this
      ensures State() == PhotoLoaded(old(State())) && Valid()
    {
      loading := false;
    }

    method OnKey(key: string) returns (closeRequested: bool)
      requires Valid()
      modifies this
      ensures (State(), closeRequested) == Key(old(State()), key, photoCount) && Valid()
    {
      closeRequested := false;
      if !isOpen {
        return;
      }
      if key == "Escape" {
        closeRequested := true;
      } else if key == "ArrowLeft" {
        OnPrev();
      } else if key == "ArrowRight" {
        OnNext();
      }
    }

    /** A click on `target`; the result is the `onClose` request. */
    method OnClick(target: ClickTarget) returns (closeRequested: bool)
      requires Valid()
      modifies this
      ensures (State(), closeRequested) == Click(old(State()), target, photoCount) && Valid()
    {
      closeRequested := false;
      if !isOpen {
        return;
      }
      match target {
        case Backdrop => closeRequested := true;
        case PrevArrow => OnPrev();
        case NextArrow => OnNext();
        case ModalContent =>
      }
    }
  }
}
