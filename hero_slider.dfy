/** The home-page slider (`HeroSlider.js`): the index of the visible slide, the autoplay
  * switch, and which of the loading, fallback and slide views is shown. Timers are
  * not modelled as time: the autoplay step and the end of the ten-second pause are
  * operations the environment calls. */
module HeroSlider {

  /** The slide after `i`, wrapping to the first. */
  function NextIndex(i: int, n: int): (r: int)
    requires 0 <= i < n
    ensures 0 <= r < n
    ensures r == if i == n - 1 then 0 else i + 1
  {
    (i + 1) % n
  }

  /** The slide before `i`, wrapping to the last. (`i - 1 + n` is never negative, so
    * JavaScript's remainder and Dafny's agree here.) */
  function PrevIndex(i: int, n: int): (r: int)
    requires 0 <= i < n
    ensures 0 <= r < n
    ensures r == if i == 0 then n - 1 else i - 1
  {
    (i - 1 + n) % n
  }

  /** Back after forward, and forward after back, return to the same slide. */
  lemma PrevNext(i: int, n: int)
    requires 0 <= i < n
    ensures PrevIndex(NextIndex(i, n), n) == i
    ensures NextIndex(PrevIndex(i, n), n) == i
  {
  }

  datatype View = Loading | Fallback | Slides(navigation: bool)

  /** What is rendered: the spinner while loading, the fallback section with no
    * images, otherwise the slides, with arrows and dots only when there are two or
    * more. */
  function ViewOf(loading: bool, count: nat): (v: View)
    ensures v == Fallback <==> !loading && count == 0
    ensures v.Slides? <==> !loading && count > 0
    ensures v.Slides? ==> (v.navigation <==> count > 1)
  {
    if loading then Loading else if count == 0 then Fallback else Slides(count > 1)
  }

  class Slider {
    var images: seq<string>
    var index: int
    var loading: bool
    var autoPlaying: bool

    /** The index always names a slide when there are slides. */
    ghost predicate Valid()
      reads this
    {
      (|images| > 0 ==> 0 <= index < |images|) && (|images| == 0 ==> index == 0)
    }

    constructor ()
      ensures Valid() && images == [] && index == 0 && loading && autoPlaying
    {
      images, index, loading, autoPlaying := [], 0, true, true;
    }

    /** `fetchHeroImages`: the images received, or none when the request failed or
      * returned an empty list. */
    method Load(received: seq<string>, ok: bool)
      requires Valid() && index == 0
      modifies this
      ensures Valid() && !loading && index == 0 && autoPlaying == old(autoPlaying)
      ensures images == if ok then received else []
    {
      images := if ok then received else [];
      loading := false;
    }

    /** The autoplay interval, which only runs while there are slides and autoplay is on. */
    method Tick()
      requires Valid() && |images| > 0 && autoPlaying
      modifies this
      ensures images == old(images) && loading == old(loading) && autoPlaying
      ensures Valid() && index == NextIndex(old(index), |images|)
    {
      index := (index + 1) % |images|;
    }

    /** The right arrow, shown only with two or more slides; pauses autoplay. */
    method Next()
      requires Valid() && |images| > 1
      modifies this
      ensures images == old(images) && loading == old(loading)
      ensures Valid() && index == NextIndex(old(index), |images|) && !autoPlaying
    {
      index := (index + 1) % |images|;
      autoPlaying := false;
    }

    /** The left arrow, shown only with two or more slides; pauses autoplay. */
    method Prev()
      requires Valid() && |images| > 1
      modifies this
      ensures images == old(images) && loading == old(loading)
      ensures Valid() && index == PrevIndex(old(index), |images|) && !autoPlaying
    {
      index := (index - 1 + |images|) % |images|;
      autoPlaying := false;
    }

    /** A dot, one per slide, shown only with two or more slides; pauses autoplay. */
    method GoTo(i: int)
      requires Valid() && |images| > 1 && 0 <= i < |images|
      modifies this
      ensures Valid() && index == i && !autoPlaying
      ensures images == old(images) && loading == old(loading)
    {
      index := i;
      autoPlaying := false;
    }

    /** The ten-second timer set by a manual move. */
    method Resume()
      requires Valid()
      modifies this
      ensures Valid() && autoPlaying
      ensures images == old(images) && index == old(index) && loading == old(loading)
    {
      autoPlaying := true;
    }
  }
}
