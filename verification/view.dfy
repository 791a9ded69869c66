/** What the overlay draws (Y_ToastView and Y_ToastOverlayView), as an
    abstract description: which content variant of a config is rendered,
    and whether the full-screen intercept layer and the toast body are on
    screen for a given (isPresenting, currentConfig).  Fonts, padding,
    shadows and transitions are not modelled. */
module ToastView {
  import opened ToastConfig
  import opened ToastManager

  /** What imageView draws above the text. */
  datatype ImageView =
    | SystemImage(systemName: string)
    | AssetImage(imageName: string)
    | Spinner
    | CustomImageView(token: ViewToken)
    | NoImage

  /** What Y_ToastView.body draws: the custom content alone, or the
      standard bubble with an image line and an optional text line. */
  datatype ToastBody =
    | CustomBody(token: ViewToken)
    | StandardBody(image: ImageView, text: Option<string>)

  /** What Y_ToastOverlayView.body puts on screen. */
  datatype Overlay = Overlay(interceptLayer: bool, toast: Option<ToastBody>)

  /** imageView: the image kind wins; a custom image is drawn only without one. */
  function ImageViewOf(c: Config): (v: ImageView)
    ensures v.CustomImageView? <==> c.image.None? && c.customImage.Some?
    ensures v.CustomImageView? ==> v.token == c.customImage.value
    ensures v == NoImage <==> c.image.None? && c.customImage.None?
  {
    match c.image
    case Some(SystemIcon(name)) => SystemImage(name)
    case Some(ImageName(name)) => AssetImage(name)
    case Some(ActivityIndicator) => Spinner
    case None => if c.customImage.Some? then CustomImageView(c.customImage.value) else NoImage
  }

  /** body of Y_ToastView. */
  function BodyOf(c: Config): (b: ToastBody)
    ensures b.CustomBody? <==> c.customContent.Some?
    ensures b.CustomBody? ==> b.token == c.customContent.value
  {
    if c.customContent.Some? then CustomBody(c.customContent.value)
    else StandardBody(ImageViewOf(c), c.text)
  }

  /** body of Y_ToastOverlayView. */
  function OverlayOf(isPresenting: bool, currentConfig: Option<Config>): (o: Overlay)
    ensures o.interceptLayer ==> o.toast.Some? && currentConfig.Some? && currentConfig.value.isFullScreen
    ensures o.toast.Some? ==> isPresenting && currentConfig.Some? && o.toast == Some(BodyOf(currentConfig.value))
  {
    Overlay(
      isPresenting && currentConfig.Some? && currentConfig.value.isFullScreen,
      if isPresenting && currentConfig.Some? then Some(BodyOf(currentConfig.value)) else None)
  }

  /** The content slots of a config, as a renderer could read them back. */
  datatype Content = Content(
    text: Option<string>,
    image: Option<ImageType>,
    customImage: Option<ViewToken>,
    customContent: Option<ViewToken>)

  /** Reads the content slots back from what was drawn. */
  function ContentOf(b: ToastBody): Content {
    match b
    case CustomBody(token) => Content(None, None, None, Some(token))
    case StandardBody(image, text) =>
      match image
      case SystemImage(name) => Content(text, Some(SystemIcon(name)), None, None)
      case AssetImage(name) => Content(text, Some(ImageName(name)), None, None)
      case Spinner => Content(text, Some(ActivityIndicator), None, None)
      case CustomImageView(token) => Content(text, None, Some(token), None)
      case NoImage => Content(text, None, None, None)
  }

  /** For every config an initializer can build, what is drawn determines
      the config's content exactly: nothing is lost or invented. */
  lemma RenderRecoversContent(c: Config)
    requires WellFormed(c)
    ensures ContentOf(BodyOf(c)) == Content(c.text, c.image, c.customImage, c.customContent)
  {
    if c.customContent.None? && c.image.Some? {
      match c.image.value
      case SystemIcon(_) =>
      case ImageName(_) =>
      case ActivityIndicator =>
    }
  }

  /** Custom content is the only thing drawn: text and images are ignored. */
  lemma CustomContentHidesRest(c: Config, d: Config)
    requires c.customContent.Some? && d.customContent == c.customContent
    ensures BodyOf(c) == BodyOf(d) == CustomBody(c.customContent.value)
  {
  }

  /** The image kind takes precedence; a custom image is drawn only when
      there is no image kind. */
  lemma ImageTakesPrecedence(c: Config, other: Option<ViewToken>)
    ensures c.image.Some? ==> ImageViewOf(c) == ImageViewOf(c.(customImage := other))
    ensures ImageViewOf(c).CustomImageView? <==> c.image.None? && c.customImage.Some?
    ensures ImageViewOf(c) == NoImage <==> c.image.None? && c.customImage.None?
  {
  }

  /** Without custom content, the text line is drawn exactly when there is a text. */
  lemma TextLineIffText(c: Config)
    requires c.customContent.None?
    ensures BodyOf(c).StandardBody?
    ensures BodyOf(c).text.Some? <==> c.text.Some?
    ensures BodyOf(c).text == c.text
  {
  }

  /** The intercept layer is up iff a full-screen config is presented; the
      body is up iff a config is presented; so no layer without a body. */
  lemma Visibility(isPresenting: bool, currentConfig: Option<Config>)
    ensures var o := OverlayOf(isPresenting, currentConfig);
      && (o.interceptLayer <==> isPresenting && currentConfig.Some? && currentConfig.value.isFullScreen)
      && (o.toast.Some? <==> isPresenting && currentConfig.Some?)
      && (o.interceptLayer ==> o.toast.Some?)
  {
  }

  /** Once nothing is presented, nothing appears until the program calls
      the manager again: time passing, timers waking and clears running
      never set isPresenting. */
  lemma {:induction false} EnvironmentKeepsHidden(s: ManagerState, es: seq<Event>, p: ClearPolicy)
    requires !s.isPresenting
    requires forall i :: 0 <= i < |es| ==> Environmental(es[i])
    ensures !Run(s, es, p).isPresenting
    decreases |es|
  {
    if es != [] {
      var next := if Due(s, es[0]) then Step(s, es[0], p) else s;
      assert !next.isPresenting by {
        assert Environmental(es[0]);
      }
      assert forall i :: 0 <= i < |es[1..]| ==> es[1..][i] == es[i + 1];
      EnvironmentKeepsHidden(next, es[1..], p);
    }
  }

  /** Nothing is on screen after a dismiss, through the grace period and
      beyond, until the program calls the manager again. */
  lemma NothingVisibleAfterDismiss(s: ManagerState, es: seq<Event>, p: ClearPolicy)
    requires forall i :: 0 <= i < |es| ==> Environmental(es[i])
    ensures var r := Run(DismissStep(s), es, p);
      OverlayOf(r.isPresenting, r.currentConfig) == Overlay(false, None)
  {
    EnvironmentKeepsHidden(DismissStep(s), es, p);
  }

  /** An accepted show puts its own config on screen, with the intercept
      layer exactly when it asked for full screen. */
  lemma ShownToastVisible(s: ManagerState, req: ShowRequest)
    requires !Rejected(req)
    ensures var r := ShowStep(s, req);
      OverlayOf(r.isPresenting, r.currentConfig) == Overlay(req.isFullScreen, Some(BodyOf(ConfigOf(req))))
  {
  }

  /** As written, a toast shown during the grace period vanishes when the
      old clear runs, although the manager still reports it presented. */
  lemma StompedToastInvisible(s: ManagerState, req: ShowRequest)
    requires |s.clears| > 0 && !Rejected(req)
    ensures var r := ClearStep(ShowStep(s, req));
      r.isPresenting && OverlayOf(r.isPresenting, r.currentConfig) == Overlay(false, None)
  {
  }

  /** The two places a tap can land. */
  datatype TapTarget = InterceptLayer | ToastArea

  /** Whether a tap on target reaches the overlay at all. */
  predicate Receives(o: Overlay, target: TapTarget) {
    match target
    case InterceptLayer => o.interceptLayer
    case ToastArea => o.toast.Some?
  }

  /** A tap on a visible, tap-removable toast, on either target, hides it;
      on one that is not tap-removable it changes nothing. */
  lemma TapOnVisibleToast(s: ManagerState, target: TapTarget)
    requires Receives(OverlayOf(s.isPresenting, s.currentConfig), target)
    ensures s.currentConfig.Some?
    ensures s.currentConfig.value.canTapRemove ==>
      var r := TapStep(s); OverlayOf(r.isPresenting, r.currentConfig).toast.None?
    ensures !s.currentConfig.value.canTapRemove ==> TapStep(s) == s
  {
  }

  /** Both tap gestures call handleTap and nothing else. */
  method Tap(m: Manager, target: TapTarget)
    requires m.Valid() && Receives(OverlayOf(m.isPresenting, m.currentConfig), target)
    modifies m
    ensures m.Valid()
    ensures m.State() == TapStep(old(m.State()))
  {
    m.HandleTap();
  }
}
