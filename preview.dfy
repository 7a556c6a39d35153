/**
  The `ImageUploadPreview` controller: it is bound to a file input, owns the
  preview image it created, and on every `change` of the input runs
  `preview`, which tries the embedded-data strategy and then the local-path
  strategy through the fallback driver of the Fallback module.

  Asynchronous callbacks are kept as state for the host to fire: the
  embedded-data strategy's 10 ms size timer is `PreviewRun.sizeTimer`
  (fired by `SizeTimerFires`), and the local-path strategy's probe image is a
  `LocalPathProbe` whose `load`, `error` and 50 ms poll events the host
  delivers with `Fire`.
 */
module Preview {
  import opened Scaling
  import DataUri
  import opened Fallback
  import Probe

  datatype Option<T> = None | Some(value: T)

  /** `BLANK_IMAGE_SRC`, shown before any preview and after every strategy failed. */
  const BlankImageSrc: string := "//www.google.com/images/cleardot.gif"

  /** `el.files[0]` of the file input, seen through `getAsDataURL`: `None`
      when the host offers no such method, otherwise what it returns. */
  datatype SelectedFile = SelectedFile(dataUrl: Option<string>)

  /** The data URL the embedded-data strategy shows: the selected file offers
      `getAsDataURL`, its result is non-empty and `BASE64_IMG_URL_PATTERN`
      accepts it. */
  function DataUriOf(file: Option<SelectedFile>): Option<string>
  {
    if file.Some? && file.value.dataUrl.Some? && file.value.dataUrl.value != ""
       && DataUri.IsEmbeddedImageUri(file.value.dataUrl.value)
    then file.value.dataUrl
    else None
  }

  /** The strategy succeeds exactly on a file whose data URL starts, ignoring
      ASCII case, with one of the five accepted image prefixes, and then
      shows that very URL. */
  lemma DataUriOfMeetsReference(file: Option<SelectedFile>)
    ensures DataUriOf(file).Some?
      <==> file.Some? && file.value.dataUrl.Some? && DataUri.HasImagePrefix(file.value.dataUrl.value)
    ensures DataUriOf(file).Some? ==> DataUriOf(file) == file.value.dataUrl
  {
    if file.Some? && file.value.dataUrl.Some? {
      DataUri.RecogniserMeetsReference(file.value.dataUrl.value);
    }
  }

  /** What the fallback driver hears from the probe's terminal handlings. */
  function Outcomes(vs: seq<Probe.Verdict>): seq<Outcome>
  {
    if vs == [] then [] else [if vs[0].Loaded? then Succeeded else Failed] + Outcomes(vs[1..])
  }

  /** The listener registered for the input's `change` event; only its
      identity matters, for `removeEventListener`. */
  class ChangeHandler {
    constructor ()
    {
    }
  }

  /** The file input element. */
  class FileInput {
    /** `el.value`: the local path (or file name) of the selection. */
    var value: string
    var file: Option<SelectedFile>
    var changeListeners: set<ChangeHandler>

    constructor (value: string, file: Option<SelectedFile>)
      ensures this.value == value && this.file == file && changeListeners == {}
    {
      this.value := value;
      this.file := file;
      changeListeners := {};
    }
  }

  /** An `img` element: the source and style the controller writes, the size
      attributes set once at creation, and whether the host exposes
      `naturalWidth`. */
  class ImageElement {
    var src: string
    var style: Style
    const widthAttribute: int
    const heightAttribute: int
    const hasNaturalSize: bool

    constructor (hasNaturalSize: bool, widthAttribute: int, heightAttribute: int)
      ensures src == "" && style == InitialStyle
      ensures this.hasNaturalSize == hasNaturalSize
      ensures this.widthAttribute == widthAttribute && this.heightAttribute == heightAttribute
    {
      src := "";
      style := InitialStyle;
      this.hasNaturalSize := hasNaturalSize;
      this.widthAttribute := widthAttribute;
      this.heightAttribute := heightAttribute;
    }
  }

  class ImageUploadPreview {
    var input: FileInput?
    var onChangeHandler: ChangeHandler?
    var image: ImageElement?
    var maxWidth: real
    var maxHeight: real

    /** Constructed and not yet disposed. */
    predicate Bound()
      reads this
    {
      input != null && onChangeHandler != null && image != null
    }

    /** `construct`: keeps the input, registers a new change listener on it
        and creates the blank, zero-sized preview image; the bounds are the
        prototype's defaults. */
    constructor (control: FileInput, hasNaturalSize: bool)
      modifies control`changeListeners
      ensures input == control && Bound()
      ensures fresh(onChangeHandler) && control.changeListeners == old(control.changeListeners) + {onChangeHandler}
      ensures fresh(image) && image.src == BlankImageSrc && image.style == InitialStyle
      ensures image.widthAttribute == 0 && image.heightAttribute == 0 && image.hasNaturalSize == hasNaturalSize
      ensures maxWidth == DefaultBound && maxHeight == DefaultBound
    {
      maxWidth := DefaultBound;
      maxHeight := DefaultBound;
      input := control;
      var fn := new ChangeHandler();
      onChangeHandler := fn;
      var img := new ImageElement(hasNaturalSize, 0, 0);
      img.src := BlankImageSrc;
      image := img;
      new;
      control.changeListeners := control.changeListeners + {fn};
    }

    /** `dispose`: unregisters exactly this controller's listener and drops
        the input, the listener and the image. */
    method Dispose()
      requires Bound()
      modifies this`input, this`onChangeHandler, this`image, input`changeListeners
      ensures input == null && onChangeHandler == null && image == null
      ensures old(input).changeListeners == old(input.changeListeners) - {old(onChangeHandler)}
    {
      var fn, el := onChangeHandler, input;
      el.changeListeners := el.changeListeners - {fn};
      onChangeHandler := null;
      input := null;
      image := null;
    }

    /** `setMaxImageSize`: each bound is its argument, or 10000 for NaN. */
    method SetMaxImageSize(maxW: NumArg, maxH: NumArg)
      modifies this`maxWidth, this`maxHeight
      ensures maxWidth == NormalizeBound(maxW) && maxHeight == NormalizeBound(maxH)
    {
      maxHeight := NormalizeBound(maxH);
      maxWidth := NormalizeBound(maxW);
    }

    /** `showImage_`: shows `src` with the bounds as maximum size and the
        size scaled along the dominant axis as width and height. */
    method ShowImage(src: string, w: int, h: int)
      requires image != null && CallerDims(w as real, h as real)
      modifies image`src, image`style
      ensures image.src == src
      ensures image.style == SurfaceStyle(Scaled(w as real, h as real, maxWidth, maxHeight), maxWidth, maxHeight)
    {
      var size := Scaled(w as real, h as real, maxWidth, maxHeight);
      var img := image;
      img.src := src;
      img.style := img.style.(maxHeight := Px(maxHeight), maxWidth := Px(maxWidth),
                              width := CssLength(size.width), height := CssLength(size.height));
    }

    /** `showEmptyImage_`: the blank image at 0 x 0 (when the height bound is
        non-negative). */
    method ShowEmptyImage()
      requires image != null
      modifies image`src, image`style
      ensures image.src == BlankImageSrc
      ensures image.style == SurfaceStyle(Scaled(0.0, 0.0, maxWidth, maxHeight), maxWidth, maxHeight)
      ensures 0.0 <= maxHeight ==> image.style.width == Px(0.0) && image.style.height == Px(0.0)
    {
      ShowImage(BlankImageSrc, 0, 0);
      EmptySizeStyle(maxWidth, maxHeight);
    }

    /** `preview`: a fresh run of the fallback driver over both strategies;
        the embedded-data strategy runs at once, and the local-path one right
        after it if it failed. */
    method Preview() returns (run: PreviewRun)
      requires Bound()
      modifies image
      ensures fresh(run) && run.session == this && run.Valid()
      ensures run.AfterDataUri(old(image.src), old(image.style))
      ensures run.probe == null || fresh(run.probe)
    {
      run := new PreviewRun(this);
      var started := run.TryLoad();
    }

    /** The change listener (`handleOnchange_`): a new preview. */
    method HandleOnchange() returns (run: PreviewRun)
      requires Bound()
      modifies image
      ensures fresh(run) && run.session == this && run.Valid()
      ensures run.steps == Steps(LoadMethods, run.reports) && |run.reports| >= 1
    {
      run := Preview();
    }

    /** `maybeShowImageWithDataUri_`: on an acceptable data URL, shows it (at
        its natural size once the size timer fires when the host exposes
        `naturalWidth`, else at `auto` size) and reports success; otherwise
        reports failure, which starts the local-path strategy. */
    method MaybeShowImageWithDataUri(run: PreviewRun)
      requires Bound() && run.session == this
      requires run.Awaiting() && run.reports == [] && run.probe == null && run.sizeTimer == None
      modifies run, image
      decreases |run.loadMethods|, 2
      ensures run.AfterDataUri(old(image.src), old(image.style))
      ensures run.probe == null || fresh(run.probe)
    {
      match DataUriOf(input.file) {
        case Some(src) =>
          var img := image;
          if img.hasNaturalSize {
            img.src := src;
            run.sizeTimer := Some(src);
          } else {
            ShowImage(src, -1, -1);
          }
          run.OnLoad();
        case None =>
          run.OnError();
      }
    }

    /** `maybeShowImageByLocalPath_`: a new probe image loading the input's
        path, with its handlers and its poll timer set. */
    method MaybeShowImageByLocalPath(run: PreviewRun) returns (probe: LocalPathProbe)
      requires Bound()
      ensures fresh(probe) && probe.Started(run, input.value)
    {
      probe := new LocalPathProbe(run, input.value);
    }
  }

  /** One call of `preview`: its `loadMethods` queue and the callbacks still
      pending. `reports` (what the strategies reported through `onLoad` and
      `onError`) and `steps` (what the driver did) are proof state. */
  class PreviewRun {
    const session: ImageUploadPreview
    var loadMethods: seq<Strategy>
    /** The embedded-data strategy's pending size timer, with its URL. */
    var sizeTimer: Option<string>
    /** The local-path strategy's probe, once started. */
    var probe: LocalPathProbe?
    ghost var reports: seq<Outcome>
    ghost var steps: seq<Step>

    /** The driver has done exactly what the Fallback model says and its
        queue has lost one strategy per start. */
    ghost predicate Synced()
      reads this
    {
      Admissible(LoadMethods, reports) && steps == Steps(LoadMethods, reports)
      && loadMethods == LoadMethods[AttemptCount(LoadMethods, reports)..]
    }

    /** A started strategy has not reported yet. */
    ghost predicate Awaiting()
      reads this
    {
      Synced() && |reports| < AttemptCount(LoadMethods, reports)
    }

    /** Inside `tryLoad`: every report so far was a failure and the driver's
        next step is still to be taken. */
    ghost predicate Advancing()
      reads this
    {
      Admissible(LoadMethods, reports) && (forall i :: 0 <= i < |reports| ==> reports[i] == Failed)
      && loadMethods == LoadMethods[|reports|..]
      && steps + (if loadMethods == [] then [ShowEmpty] else [Attempt(loadMethods[0])])
         == Steps(LoadMethods, reports)
    }

    /** Between events: the driver is in step, a size timer is pending only
        after the embedded-data strategy succeeded, and the probe exists
        exactly when that strategy failed, its terminal handlings being the
        driver's later reports. */
    ghost predicate Valid()
      reads this, probe
    {
      Synced() && reports != []
      && (sizeTimer.Some? ==> reports == [Succeeded])
      && (probe == null <==> reports[0] == Succeeded)
      && (probe != null ==> probe.run == this && probe.Valid() && reports[1..] == Outcomes(probe.handled))
    }

    /** The state right after the embedded-data strategy ran on the session's
        input, given the image's source and style before. */
    ghost predicate AfterDataUri(src0: string, style0: Style)
      reads this, probe, session, session.image, session.input
      requires session.Bound()
    {
      match DataUriOf(session.input.file)
      case Some(url) =>
        reports == [Succeeded] && steps == [Attempt(DataUri)] && loadMethods == [LocalPath]
        && probe == null && session.image.src == url
        && if session.image.hasNaturalSize then
             session.image.style == style0 && sizeTimer == Some(url)
           else
             session.image.style == SurfaceStyle(Scaled(-1.0, -1.0, session.maxWidth, session.maxHeight),
                                                 session.maxWidth, session.maxHeight)
             && sizeTimer == None
      case None =>
        reports == [Failed] && steps == [Attempt(DataUri), Attempt(LocalPath)] && loadMethods == []
        && sizeTimer == None && probe != null && probe.Started(this, session.input.value)
        && session.image.src == src0 && session.image.style == style0
    }

    constructor (session: ImageUploadPreview)
      ensures this.session == session && loadMethods == LoadMethods && sizeTimer == None && probe == null
      ensures reports == [] && steps == [] && Advancing()
    {
      this.session := session;
      loadMethods := LoadMethods;
      sizeTimer := None;
      probe := null;
      reports := [];
      steps := [];
    }

    /** `tryLoad`: false on an empty queue; otherwise takes the first strategy
        off the queue and runs it. */
    method TryLoad() returns (started: bool)
      requires Advancing()
      requires loadMethods != [] ==> session.Bound() && probe == null && sizeTimer == None
      modifies this, session.image
      decreases |loadMethods|, 0
      ensures started <==> old(loadMethods) != []
      ensures probe == old(probe) || fresh(probe)
      ensures !started ==>
        Advancing() && reports == old(reports) && steps == old(steps) && loadMethods == []
        && probe == old(probe) && sizeTimer == old(sizeTimer)
        && (session.image != null ==>
              session.image.src == old(session.image.src) && session.image.style == old(session.image.style))
      ensures started && old(loadMethods)[0] == LocalPath ==>
        Awaiting() && reports == old(reports) && steps == old(steps) + [Attempt(LocalPath)] && loadMethods == []
        && sizeTimer == None && probe != null && probe.Started(this, session.input.value)
        && session.image.src == old(session.image.src) && session.image.style == old(session.image.style)
      ensures started && old(loadMethods)[0] == DataUri ==>
        AfterDataUri(old(session.image.src), old(session.image.style))
    {
      if loadMethods == [] {
        return false;
      }
      var fn := loadMethods[0];
      loadMethods := loadMethods[1..];
      steps := steps + [Attempt(fn)];
      match fn {
        case DataUri =>
          session.MaybeShowImageWithDataUri(this);
        case LocalPath =>
          probe := session.MaybeShowImageByLocalPath(this);
      }
      return true;
    }

    /** `onLoad`: does nothing; the driver takes note of the success. */
    method OnLoad()
      requires Awaiting()
      modifies this`reports
      ensures reports == old(reports) + [Succeeded] && Synced()
    {
      AllButLastFailed();
      reports := reports + [Succeeded];
      StepsOnSuccess(LoadMethods, old(reports));
    }

    /** `onError`: starts the next strategy, or shows the blank image when
        none is left (provided the controller still has its image). */
    method OnError()
      requires Awaiting()
      requires loadMethods != [] ==> session.Bound() && probe == null && sizeTimer == None
      modifies this, session.image
      decreases |loadMethods|, 1
      ensures Synced() && reports == old(reports) + [Failed] && loadMethods == []
      ensures old(loadMethods) == [] ==>
        steps == old(steps) + [ShowEmpty] && probe == old(probe) && sizeTimer == old(sizeTimer)
        && (session.image != null ==>
              session.image.src == BlankImageSrc
              && session.image.style == SurfaceStyle(Scaled(0.0, 0.0, session.maxWidth, session.maxHeight),
                                                     session.maxWidth, session.maxHeight))
      ensures old(loadMethods) != [] ==>
        old(loadMethods) == [LocalPath] && steps == old(steps) + [Attempt(LocalPath)]
        && sizeTimer == None && probe != null && fresh(probe) && probe.Started(this, session.input.value)
        && session.image.src == old(session.image.src) && session.image.style == old(session.image.style)
    {
      AllButLastFailed();
      reports := reports + [Failed];
      StepsOnFailure(LoadMethods, old(reports));
      var more := TryLoad();
      if !more {
        steps := steps + [ShowEmpty];
        if session.image != null {
          session.ShowEmptyImage();
        }
      }
    }

    /** While a strategy is outstanding, every earlier one failed and the
        queue holds what follows it. */
    lemma AllButLastFailed()
      requires Awaiting()
      ensures forall i :: 0 <= i < |reports| ==> reports[i] == Failed
      ensures AttemptCount(LoadMethods, reports) == |reports| + 1 && |reports| < |LoadMethods|
    {
    }

    /** The embedded-data strategy's size timer: shows its URL at the image's
        natural size. */
    method SizeTimerFires(naturalWidth: nat, naturalHeight: nat)
      requires Valid() && sizeTimer.Some? && session.Bound()
      modifies this`sizeTimer, session.image`src, session.image`style
      ensures Valid() && sizeTimer == None
      ensures session.image.src == old(sizeTimer).value
      ensures session.image.style
        == SurfaceStyle(Scaled(naturalWidth as real, naturalHeight as real, session.maxWidth, session.maxHeight),
                        session.maxWidth, session.maxHeight)
    {
      var url := sizeTimer.value;
      sizeTimer := None;
      session.ShowImage(url, naturalWidth, naturalHeight);
    }
  }

  /** The probe image of the local-path strategy and its closure state. */
  class LocalPathProbe {
    const run: PreviewRun
    /** `img.src`: the input's path. */
    const src: string
    /** The 50 ms poll is scheduled. */
    var timerSet: bool
    /** `img.onload` and `img.onerror` are set to `checkComplete`. */
    var handlersSet: bool
    /** The events that reached the probe image, and the terminal handlings
        (`handleError`, `handleComplete`) that ran. */
    ghost var delivered: seq<Probe.Observation>
    ghost var handled: seq<Probe.Verdict>

    /** The probe behaves as the one-shot latch of the Probe model, and is
        listening exactly until its terminal handling. */
    ghost predicate Valid()
      reads this
    {
      handled == Probe.Terminals(delivered) && timerSet == (handled == []) && handlersSet == timerSet
    }

    ghost predicate Started(r: PreviewRun, path: string)
      reads this
    {
      run == r && src == path && timerSet && handlersSet && delivered == [] && handled == []
    }

    constructor (run: PreviewRun, src: string)
      ensures Started(run, src)
    {
      this.run := run;
      this.src := src;
      timerSet := true;
      handlersSet := true;
      delivered := [];
      handled := [];
    }

    /** An event reaches the probe image; while its handler is registered it
        runs `checkComplete`, which fails on `error`, and on `load` or a
        complete image fails on a zero size and succeeds otherwise. The
        terminal handling disposes the probe first, so the probe stops
        listening even when the controller was disposed meanwhile. */
    method Fire(o: Probe.Observation)
      requires run.Valid() && run.probe == this
      modifies this, run, run.session.image
      ensures run.Valid() && run.probe == this && run.sizeTimer == old(run.sizeTimer)
      ensures delivered == old(delivered) + [o] && |handled| <= 1
      ensures old(handled) != [] ==>
        handled == old(handled) && !timerSet && run.reports == old(run.reports) && run.steps == old(run.steps)
        && (run.session.image != null ==>
              run.session.image.src == old(run.session.image.src)
              && run.session.image.style == old(run.session.image.style))
      ensures old(handled) == [] ==> match Probe.Classify(o)
        case Pending =>
          timerSet && run.reports == old(run.reports) && run.steps == old(run.steps)
          && (run.session.image != null ==>
                run.session.image.src == old(run.session.image.src)
                && run.session.image.style == old(run.session.image.style))
        case Failed =>
          !timerSet && !handlersSet && run.reports == [Failed, Failed]
          && run.steps == [Attempt(DataUri), Attempt(LocalPath), ShowEmpty]
          && (run.session.image != null ==>
                run.session.image.src == BlankImageSrc
                && run.session.image.style
                   == SurfaceStyle(Scaled(0.0, 0.0, run.session.maxWidth, run.session.maxHeight),
                                   run.session.maxWidth, run.session.maxHeight))
        case Loaded(w, h) =>
          !timerSet && !handlersSet && run.reports == [Failed, Succeeded]
          && run.steps == [Attempt(DataUri), Attempt(LocalPath)]
          && (run.session.image != null ==>
                run.session.image.src == src
                && run.session.image.style
                   == SurfaceStyle(Scaled(w as real, h as real, run.session.maxWidth, run.session.maxHeight),
                                   run.session.maxWidth, run.session.maxHeight))
    {
      var registered := if o.signal.Tick? then timerSet else handlersSet;
      Probe.TerminalsExtend(delivered, o);
      Probe.TerminalsAtMostOnce(delivered + [o]);
      LoadMethodsRuns();
      delivered := delivered + [o];
      if registered {
        if o.signal == Probe.Error {
          HandleError();
        } else if o.complete || o.signal == Probe.Load {
          if o.width == 0 || o.height == 0 {
            HandleError();
          } else {
            HandleComplete(o.width, o.height);
          }
        }
      }
    }

    /** `checkComplete` as written, reached after the controller's `dispose`:
        both terminal handlings call `showImage_` before the probe's
        `dispose` (`handleComplete` directly; `handleError` through `onError`
        and `showEmptyImage_`, the queue being empty), and `showImage_` fails
        on the null image. The handling aborts with nothing changed, so the
        poll and both handlers stay registered. */
    method FireAsWrittenAfterControllerDispose(o: Probe.Observation) returns (threw: bool)
      requires Valid() && timerSet && run.session.image == null
      ensures threw <==> Probe.Classify(o) != Probe.Pending
      ensures timerSet && handlersSet && handled == []
    {
      var registered := if o.signal.Tick? then timerSet else handlersSet;
      // Every non-pending event runs a terminal handling, and each one fails
      // at `img.src = src` in `showImage_`: `handleError` (on `error`, or on
      // a zero size) goes there through `onError` and `showEmptyImage_`, and
      // `handleComplete` calls it first.
      threw := registered && (o.signal == Probe.Error || o.complete || o.signal == Probe.Load);
    }

    /** `handleError`, disposing the probe before reporting the failure to
        the driver (the queue is empty, so the blank image is shown). */
    method HandleError()
      requires timerSet && handled == [] && run.probe == this
      requires run.Awaiting() && run.loadMethods == []
      modifies this, run, run.session.image
      ensures !timerSet && !handlersSet && handled == [Probe.Failed] && delivered == old(delivered)
      ensures run.Synced() && run.probe == this && run.sizeTimer == old(run.sizeTimer)
      ensures run.reports == old(run.reports) + [Failed] && run.steps == old(run.steps) + [ShowEmpty]
      ensures run.session.image != null ==>
        run.session.image.src == BlankImageSrc
        && run.session.image.style
           == SurfaceStyle(Scaled(0.0, 0.0, run.session.maxWidth, run.session.maxHeight),
                           run.session.maxWidth, run.session.maxHeight)
    {
      Dispose();
      handled := handled + [Probe.Failed];
      run.OnError();
    }

    /** `handleComplete`, disposing the probe first: shows the probe's source
        at its size while the controller has its image, and reports success
        to the driver. */
    method HandleComplete(w: nat, h: nat)
      requires timerSet && handled == [] && run.probe == this
      requires run.Awaiting()
      modifies this, run, run.session.image
      ensures !timerSet && !handlersSet && handled == [Probe.Loaded(w, h)] && delivered == old(delivered)
      ensures run.Synced() && run.probe == this && run.sizeTimer == old(run.sizeTimer)
      ensures run.reports == old(run.reports) + [Succeeded] && run.steps == old(run.steps)
      ensures run.session.image != null ==>
        run.session.image.src == src
        && run.session.image.style
           == SurfaceStyle(Scaled(w as real, h as real, run.session.maxWidth, run.session.maxHeight),
                           run.session.maxWidth, run.session.maxHeight)
    {
      Dispose();
      handled := handled + [Probe.Loaded(w, h)];
      if run.session.image != null {
        run.session.ShowImage(src, w, h);
      }
      run.OnLoad();
    }

    /** The probe's `dispose`: clears the poll and both handlers. */
    method Dispose()
      modifies this`timerSet, this`handlersSet
      ensures !timerSet && !handlersSet
    {
      timerSet := false;
      handlersSet := false;
    }
  }

  /** A probe outliving its controller, as written: a selection without
      `getAsDataURL` is previewed, the controller is disposed, and the probe
      image then loads at 30 x 40. The handling fails on the missing preview
      image and the 50 ms poll stays scheduled. */
  method ProbeAfterDisposeAsWritten() returns (threw: bool, polling: bool)
    ensures threw && polling
  {
    var input := new FileInput("photo.png", None);
    var widget := new ImageUploadPreview(input, false);
    var run := widget.Preview();
    var probe := run.probe;
    widget.Dispose();
    threw := probe.FireAsWrittenAfterControllerDispose(Probe.Observation(Probe.Load, true, 30, 40));
    polling := probe.timerSet;
  }

  /** The same sequence with the probe disposing itself before it shows
      anything: the poll is cleared, and a later tick changes nothing. */
  method ProbeAfterDisposeCorrected() returns (polling: bool)
    ensures !polling
  {
    var input := new FileInput("photo.png", None);
    var widget := new ImageUploadPreview(input, false);
    var run := widget.Preview();
    var probe := run.probe;
    widget.Dispose();
    probe.Fire(Probe.Observation(Probe.Load, true, 30, 40));
    probe.Fire(Probe.Observation(Probe.Tick, true, 30, 40));
    polling := probe.timerSet;
  }
}
