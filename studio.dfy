/** The `PhotoStudio` component as an object: its state hooks are fields and
    its event handlers are methods that assign them. Every awaited step of
    the capture sequence is appended to `log` instead of taking real time. */
module Studio {
  import Filters
  import opened Capture
  import opened Countdown
  import opened Wrappers
  import opened Strip

  /** The number of passes of a `for (i = 0; i < count; i++)` loop. */
  function Passes(count: int): nat {
    if count > 0 then count else 0
  }

  class PhotoStudio {
    var selectedFilter: string
    var photos: seq<Photo>
    var isCapturing: bool
    var countdown: Option<string>
    var showResult: bool
    var showPhotoCountSelection: bool
    var selectedPhotoCount: int
    var showStudio: bool
    /** Everything the capture sequences have awaited so far, in order. */
    var log: seq<Event>

    /** The count-selection screen is the one on display. */
    predicate SelectionVisible()
      reads this
    {
      showPhotoCountSelection && !showStudio && !showResult
    }

    /** The studio (webcam, filter bar, capture button) is on display. */
    predicate StudioVisible()
      reads this
    {
      showStudio && !showResult
    }

    /** The screen flags are in a reachable state: either the count selection
        alone, or the studio with the count selection hidden (the result, when
        shown, replaces the studio). */
    predicate OneScreen()
      reads this
    {
      SelectionVisible() || (!showPhotoCountSelection && showStudio)
    }

    /** The strip on the result screen, when it is shown. */
    function Result(): Option<Composition>
      reads this
    {
      if showResult then Some(Compose(photos, selectedPhotoCount)) else None
    }

    /** The initial state of the hooks. */
    constructor ()
      ensures selectedFilter == "90s" && photos == [] && !isCapturing
      ensures countdown == None && !showResult
      ensures showPhotoCountSelection && selectedPhotoCount == 3 && !showStudio
      ensures log == []
      ensures SelectionVisible() && OneScreen()
    {
      selectedFilter := "90s";
      photos := [];
      isCapturing := false;
      countdown := None;
      showResult := false;
      showPhotoCountSelection := true;
      selectedPhotoCount := 3;
      showStudio := false;
      log := [];
    }

    /** `handlePhotoCountSelect`: remember the count and open the studio. */
    method SelectPhotoCount(count: int)
      modifies this`selectedPhotoCount, this`showPhotoCountSelection, this`showStudio
      ensures selectedPhotoCount == count && !showPhotoCountSelection && showStudio
      ensures OneScreen()
    {
      selectedPhotoCount := count;
      showPhotoCountSelection := false;
      showStudio := true;
    }

    /** The "Change" link of the studio: back to the count selection. */
    method ChangeCount()
      modifies this`showPhotoCountSelection, this`showStudio
      ensures !showStudio && showPhotoCountSelection
      ensures old(StudioVisible()) ==> SelectionVisible()
    {
      showStudio := false;
      showPhotoCountSelection := true;
    }

    /** A button of the filter bar. */
    method SelectFilter(filter: string)
      modifies this`selectedFilter
      ensures selectedFilter == filter
    {
      selectedFilter := filter;
    }

    /** `takePhoto`: when the video has a frame, append exactly one photo,
        drawn through the selected filter's canvas filter and tagged with the
        selected filter's name; otherwise leave the list as it is. */
    method TakePhoto(video: Video)
      modifies this`photos, this`log
      ensures Ready(video) ==> photos == old(photos) + [Photo(Rendered(video.frame, Filters.CanvasFilter(selectedFilter)), selectedFilter)]
      ensures !Ready(video) ==> photos == old(photos)
      ensures log == old(log) + [Capture]
    {
      log := log + [Capture];
      if video.NoVideo? || video.readyState < 2 {
        return;
      }
      var cssFilter := Filters.CanvasFilter(selectedFilter);
      var filteredImg := Rendered(video.frame, cssFilter);
      photos := photos + [Photo(filteredImg, selectedFilter)];
    }

    /** `countdownStep`: show a label, then wait a frame and a second. */
    method CountdownStep(text: string)
      modifies this`countdown, this`log
      ensures countdown == Some(text)
      ensures log == old(log) + Step(text)
    {
      countdown := Some(text);
      log := log + [ShowCountdown(Some(text)), NextFrame, Delay(STEP_MS)];
    }

    /** One pass of the loop of `startPhotoSequence`: the four countdown
        steps, `takePhoto`, the countdown cleared, the pause. */
    method ShootPass(video: Video)
      modifies this`photos, this`log, this`countdown
      ensures photos == old(photos) + (if Ready(video) then [Shoot(video, selectedFilter)] else [])
      ensures log == old(log) + Pass(selectedPhotoCount)
      ensures countdown == None
    {
      ghost var before := log;
      CountdownStep(LABELS[0]);
      CountdownStep(LABELS[1]);
      assert log == before + (Step(LABELS[0]) + Step(LABELS[1]));
      CountdownStep(LABELS[2]);
      assert log == before + (Step(LABELS[0]) + Step(LABELS[1]) + Step(LABELS[2]));
      CountdownStep(LABELS[3]);
      ghost var countdownSteps := Step(LABELS[0]) + Step(LABELS[1]) + Step(LABELS[2]) + Step(LABELS[3]);
      assert log == before + countdownSteps;
      TakePhoto(video);
      assert log == before + (countdownSteps + [Capture]);
      countdown := None;
      log := log + [ShowCountdown(None)];
      assert log == before + (countdownSteps + [Capture, ShowCountdown(None)]);
      var pauseTime := PauseTime(selectedPhotoCount);
      log := log + [Delay(pauseTime)];
    }

    /** `startPhotoSequence`: clear the list, run one countdown, capture and
        pause per requested photo, then show the result. The list ends as
        the photos of the passes whose video was ready, in pass order. */
    method StartPhotoSequence(camera: Camera)
      modifies this`isCapturing, this`photos, this`showResult, this`countdown, this`log
      ensures photos == Shots(camera, Passes(selectedPhotoCount), selectedFilter)
      ensures |photos| == ReadyPasses(camera, Passes(selectedPhotoCount)) <= Passes(selectedPhotoCount)
      ensures log == old(log) + Session(selectedPhotoCount, Passes(selectedPhotoCount))
      ensures countdown == if Passes(selectedPhotoCount) > 0 then None else old(countdown)
      ensures !isCapturing && showResult
      ensures old(OneScreen() && StudioVisible()) ==> OneScreen() && Result().Some?
    {
      isCapturing := true;
      photos := [];
      showResult := false;
      var i := 0;
      while i < selectedPhotoCount
        invariant 0 <= i <= Passes(selectedPhotoCount)
        invariant photos == Shots(camera, i, selectedFilter)
        invariant |photos| <= i
        invariant log == old(log) + Session(selectedPhotoCount, i)
        invariant countdown == if i > 0 then None else old(countdown)
        invariant isCapturing && !showResult
      {
        ShootPass(camera(i));
        ShotsCount(camera, i + 1, selectedFilter);
        i := i + 1;
      }
      ShotsCount(camera, i, selectedFilter);
      isCapturing := false;
      showResult := true;
    }

    /** `handleReshoot`: discard the photos and return to the studio, keeping
        the chosen count and filter. */
    method HandleReshoot()
      modifies this`photos, this`showResult
      ensures photos == [] && !showResult
      ensures selectedPhotoCount == old(selectedPhotoCount) && selectedFilter == old(selectedFilter)
      ensures old(OneScreen()) ==> OneScreen()
      ensures old(Result().Some?) && old(OneScreen()) ==> StudioVisible()
    {
      photos := [];
      showResult := false;
    }
  }

  /** A three-photo "Noir" session on a camera that is always ready: three
      photos in pass order, all tagged "Noir", shown as a vertical strip with
      the "noir" class. */
  method NoirSession(frames: nat -> nat) returns (strip: Option<Composition>)
    ensures strip.Some? && strip.value.layout == Vertical && |strip.value.cells| == 3
    ensures forall i :: 0 <= i < 3 ==>
              strip.value.cells[i] == Cell(Rendered(frames(i), "grayscale(1) contrast(0.8) brightness(1.1)"), "noir")
  {
    var studio := new PhotoStudio();
    studio.SelectPhotoCount(3);
    studio.SelectFilter("Noir");
    var camera: Camera := (i: nat) => Video(4, frames(i));
    studio.StartPhotoSequence(camera);
    ShotsAllReady(camera, 3, "Noir");
    Filters.NoirStyle();
    forall i | 0 <= i < 3
      ensures studio.photos[i] == Photo(Rendered(frames(i), "grayscale(1) contrast(0.8) brightness(1.1)"), "Noir")
    {
      assert camera(i) == Video(4, frames(i));
    }
    strip := studio.Result();
  }
}
