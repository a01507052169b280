/**
 * The hero image slider (js/main.js:346-348 and 609-727): a current index
 * over the slider images, moved forward and back modulo their number, and an
 * `isAnimating` flag that blocks redrawing until the 600 ms animation timer
 * has fired. Each redraw marks every image "prev", "active" or "next", moves
 * the progress bar and shows the caption of the new slide.
 */
module HeroSlider {

  /** `slideDirection`: 'next' or 'prev'. */
  datatype Direction = Forward | Backward

  /** The slider classes an image can carry. */
  datatype Mark = Active | Prev | Next

  /** The number of captions in `slideData` (js/main.js:351-376). */
  const CAPTION_COUNT: nat := 6

  /** `(currentSlide + 1) % sliderImages.length`. */
  function NextIndex(current: nat, count: nat): (r: nat)
    requires current < count
    ensures r < count
    ensures r == if current == count - 1 then 0 else current + 1
  {
    (current + 1) % count
  }

  /** `(currentSlide - 1 + sliderImages.length) % sliderImages.length`. */
  function PrevIndex(current: nat, count: nat): (r: nat)
    requires current < count
    ensures r < count
    ensures r == if current == 0 then count - 1 else current - 1
  {
    (current - 1 + count) % count
  }

  /** Going forward and then back returns to the same slide, and so does going back and then forward. */
  lemma PrevUndoesNext(current: nat, count: nat)
    requires current < count
    ensures PrevIndex(NextIndex(current, count), count) == current
    ensures NextIndex(PrevIndex(current, count), count) == current
  {
  }

  /** The class an image at position `j` gets when slide `index` is drawn. */
  function MarkAt(j: nat, index: nat): set<Mark>
  {
    if j < index then {Prev} else if j == index then {Active} else {Next}
  }

  /**
   * The classes a redraw to slide `index` leaves: exactly one image is
   * "active", namely `index`; every image before it is "prev" and every
   * image after it "next", and no image carries two of them.
   */
  function MarksFor(index: nat, count: nat): (m: seq<set<Mark>>)
    requires index < count
    ensures |m| == count
    ensures forall j :: 0 <= j < count ==> (Active in m[j] <==> j == index)
    ensures forall j :: 0 <= j < count ==> (Prev in m[j] <==> j < index)
    ensures forall j :: 0 <= j < count ==> (Next in m[j] <==> j > index)
    ensures forall j :: 0 <= j < count ==> |m[j]| == 1
  {
    seq(count, j requires 0 <= j => MarkAt(j, index))
  }

  /** Every image with no slider class. */
  function Unmarked(count: nat): (m: seq<set<Mark>>)
  {
    seq(count, j => {})
  }

  /**
   * The progress bar width, in percent: `((index + 1) / sliderImages.length) * 100`.
   * The bar is never empty, never over full, and full exactly on the last slide.
   */
  function Progress(index: nat, count: nat): (p: real)
    requires index < count
    ensures 0.0 < p <= 100.0
    ensures p == 100.0 <==> index == count - 1
  {
    var n := count as real;
    var q := (index + 1) as real / n;
    assert q * n == (index + 1) as real;
    assert index == count - 1 ==> q == 1.0;
    assert index < count - 1 ==> (index + 1) as real < n && q < 1.0;
    q * 100.0
  }

  /** Later slides have a longer bar. */
  lemma ProgressIncreasing(i: nat, j: nat, count: nat)
    requires i < j < count
    ensures Progress(i, count) < Progress(j, count)
  {
    var n := count as real;
    var a := (i + 1) as real / n;
    var b := (j + 1) as real / n;
    assert a * n == (i + 1) as real && b * n == (j + 1) as real;
    assert (b - a) * n == (j - i) as real;
  }

  class Slider {
    /** `sliderImages.length`. */
    const count: nat
    /** `currentSlide`. */
    var current: nat
    /** `isAnimating`. */
    var isAnimating: bool
    /** `slideDirection`. */
    var direction: Direction
    /** The slider classes of each image, in document order. */
    var marks: seq<set<Mark>>
    /** The progress bar's width in percent. */
    var progress: real
    /** The index into `slideData` of the caption on show. */
    var caption: nat
    /** The slide the classes and the bar were last drawn for. */
    ghost var shown: nat

    ghost predicate Valid()
      reads this
    {
      && current < count
      && shown < count
      && marks == MarksFor(shown, count)
      && progress == Progress(shown, count)
      && caption < CAPTION_COUNT
      && (shown < CAPTION_COUNT ==> caption == shown)
    }

    /**
     * The slider set-up (js/main.js:609-627 and 715): nothing is set up when
     * there are no images; otherwise the slider starts at slide 0, drawn,
     * with the animation flag raised.
     */
    static method Setup(imageCount: nat) returns (s: Slider?)
      ensures imageCount == 0 <==> s == null
      ensures s != null ==> fresh(s) && s.Valid() && s.count == imageCount
      ensures s != null ==> s.current == 0 && s.shown == 0 && s.isAnimating && s.direction == Forward
    {
      if imageCount == 0 {
        return null;
      }
      s := new Slider(imageCount);
      s.UpdateSlide(0);
    }

    /** The state before the first redraw: index 0, not animating, direction 'next', no image marked. */
    constructor (imageCount: nat)
      requires imageCount > 0
      ensures count == imageCount && current == 0 && !isAnimating && direction == Forward
      ensures marks == Unmarked(imageCount) && caption == 0 && shown == 0
    {
      count := imageCount;
      current := 0;
      isAnimating := false;
      direction := Forward;
      marks := Unmarked(imageCount);
      progress := 0.0;
      caption := 0;
      shown := 0;
    }

    /**
     * `updateSlide(index)` (js/main.js:628-672): while an animation runs it
     * does nothing; otherwise it redraws for `index`, whatever the
     * direction, and raises the animation flag.
     */
    method UpdateSlide(index: nat)
      requires index < count && |marks| == count && caption < CAPTION_COUNT
      modifies this
      ensures direction == old(direction)
      ensures old(isAnimating) ==>
        && isAnimating && current == old(current) && marks == old(marks)
        && progress == old(progress) && caption == old(caption) && shown == old(shown)
      ensures !old(isAnimating) ==>
        && isAnimating && current == index && shown == index
        && marks == MarksFor(index, count) && progress == Progress(index, count)
        && caption == (if index < CAPTION_COUNT then index else old(caption))
    {
      if isAnimating {
        return;
      }
      isAnimating := true;
      ClearMarks();
      marks := marks[index := marks[index] + {Active}];
      AddNeighbourMarks(index);
      assert marks == MarksFor(index, count);
      if index < CAPTION_COUNT {
        caption := index;
      }
      progress := Progress(index, count);
      current := index;
      shown := index;
    }

    /** `img.classList.remove('active', 'prev', 'next')` for every image (js/main.js:635-637). */
    method ClearMarks()
      requires |marks| == count
      modifies this`marks
      ensures marks == Unmarked(count)
    {
      var k := 0;
      while k < count
        invariant 0 <= k <= count && |marks| == count
        invariant forall j :: 0 <= j < k ==> marks[j] == {}
      {
        assert marks[k] - {Active, Prev, Next} == {} by {
          forall m | m in marks[k] ensures m in {Active, Prev, Next} {
            assert m.Active? || m.Prev? || m.Next?;
          }
        }
        marks := marks[k := marks[k] - {Active, Prev, Next}];
        k := k + 1;
      }
    }

    /**
     * The direction-dependent loops of js/main.js:642-652: "prev" on every
     * image before `index`, "next" on every image after it. Both directions
     * add the same classes, only in a different order.
     */
    method AddNeighbourMarks(index: nat)
      requires index < count
      requires |marks| == count
      requires forall j :: 0 <= j < count ==> marks[j] == if j == index then {Active} else {}
      modifies this`marks
      ensures marks == MarksFor(index, count)
    {
      var k := 0;
      if direction == Forward {
        while k < count
          invariant 0 <= k <= count && |marks| == count
          invariant forall j :: 0 <= j < k ==> marks[j] == MarkAt(j, index)
          invariant forall j :: k <= j < count ==> marks[j] == if j == index then {Active} else {}
        {
          if k < index { marks := marks[k := marks[k] + {Prev}]; }
          if k > index { marks := marks[k := marks[k] + {Next}]; }
          k := k + 1;
        }
      } else {
        while k < count
          invariant 0 <= k <= count && |marks| == count
          invariant forall j :: 0 <= j < k ==> marks[j] == MarkAt(j, index)
          invariant forall j :: k <= j < count ==> marks[j] == if j == index then {Active} else {}
        {
          if k > index { marks := marks[k := marks[k] + {Next}]; }
          if k < index { marks := marks[k := marks[k] + {Prev}]; }
          k := k + 1;
        }
      }
      assert forall j :: 0 <= j < count ==> MarksFor(index, count)[j] == MarkAt(j, index);
    }

    /** The 600 ms timer of js/main.js:669-671 fires: the animation is over. */
    method AnimationFinished()
      modifies this
      ensures !isAnimating
      ensures current == old(current) && direction == old(direction) && marks == old(marks)
      ensures progress == old(progress) && caption == old(caption) && shown == old(shown)
    {
      isAnimating := false;
    }

    /**
     * `nextSlide` (js/main.js:674-678): the index always advances, even when
     * the redraw is blocked by a running animation.
     */
    method NextSlide()
      requires Valid()
      modifies this
      ensures Valid()
      ensures direction == Forward && current == NextIndex(old(current), count)
      ensures isAnimating
      ensures !old(isAnimating) ==> shown == current
      ensures !old(isAnimating) ==> caption == (if current < CAPTION_COUNT then current else old(caption))
      ensures old(isAnimating) ==>
        shown == old(shown) && marks == old(marks) && progress == old(progress) && caption == old(caption)
    {
      direction := Forward;
      current := NextIndex(current, count);
      UpdateSlide(current);
    }

    /** `previousSlide` (js/main.js:680-684): as `NextSlide`, one slide back. */
    method PreviousSlide()
      requires Valid()
      modifies this
      ensures Valid()
      ensures direction == Backward && current == PrevIndex(old(current), count)
      ensures isAnimating
      ensures !old(isAnimating) ==> shown == current
      ensures !old(isAnimating) ==> caption == (if current < CAPTION_COUNT then current else old(caption))
      ensures old(isAnimating) ==>
        shown == old(shown) && marks == old(marks) && progress == old(progress) && caption == old(caption)
    {
      direction := Backward;
      current := PrevIndex(current, count);
      UpdateSlide(current);
    }

    /** One tick of the autoplay interval (js/main.js:701-705): advances only when no animation runs. */
    method AutoPlayTick()
      requires Valid()
      modifies this
      ensures Valid()
      ensures isAnimating
      ensures old(isAnimating) ==>
        && current == old(current) && direction == old(direction) && shown == old(shown)
        && marks == old(marks) && progress == old(progress) && caption == old(caption)
        && isAnimating
      ensures !old(isAnimating) ==>
        && direction == Forward && current == NextIndex(old(current), count) && shown == current
        && caption == (if current < CAPTION_COUNT then current else old(caption))
    {
      if !isAnimating {
        NextSlide();
      }
    }
  }
}
