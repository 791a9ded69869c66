/** The Y_Toast facade: the three show overloads, the presets, dismiss and
    the two state queries.  Each preset is a function from the caller's
    arguments (with the preset's defaults) to the manager's show arguments;
    each facade method makes one call on the manager it is given, which
    stands for the shared instance. */
module Toast {
  import opened ToastConfig
  import opened ToastManager

  /** The default duration of the timed presets (2.0 s). */
  const PresetDurationMs: int := 2000

  /** The default text of showLoading ("加载中...", "Loading..."). */
  const LoadingText: string := "加载中..."

  // ---------------------------------------------------------------------
  // Presets as mappings to the manager's show arguments

  /** r is the text overload's call carrying the caller's text, flags and duration. */
  predicate Forwards(r: ShowRequest, text: string, isFullScreen: bool, canTapRemove: bool, duration: int) {
    && r.TextShow? && r.text == text
    && r.isFullScreen == isFullScreen && r.canTapRemove == canTapRemove && r.duration == duration
  }

  function TextRequest(text: string, isFullScreen: bool := false, canTapRemove: bool := false,
                       duration: int := PresetDurationMs): (r: ShowRequest)
    ensures Forwards(r, text, isFullScreen, canTapRemove, duration) && r.image.None?
  {
    TextShow(text, None, isFullScreen, canTapRemove, duration)
  }

  function ImageRequest(text: string, image: ImageType, isFullScreen: bool := false,
                        canTapRemove: bool := false, duration: int := PresetDurationMs): (r: ShowRequest)
    ensures Forwards(r, text, isFullScreen, canTapRemove, duration) && r.image == Some(image)
  {
    TextShow(text, Some(image), isFullScreen, canTapRemove, duration)
  }

  function AutoDismissRequest(text: string, image: Option<ImageType> := None, isFullScreen: bool := true,
                              canTapRemove: bool := true, duration: int := PresetDurationMs): (r: ShowRequest)
    ensures Forwards(r, text, isFullScreen, canTapRemove, duration) && r.image == image
  {
    TextShow(text, image, isFullScreen, canTapRemove, duration)
  }

  /** showFullScreen has no isFullScreen parameter: it always passes true. */
  function FullScreenRequest(text: string, canTapRemove: bool := true, duration: int := 0): (r: ShowRequest)
    ensures Forwards(r, text, true, canTapRemove, duration) && r.image.None?
  {
    TextShow(text, None, true, canTapRemove, duration)
  }

  /** showTimed: the duration has no default. */
  function TimedRequest(text: string, duration: int, isFullScreen: bool := false,
                        canTapRemove: bool := false): (r: ShowRequest)
    ensures Forwards(r, text, isFullScreen, canTapRemove, duration) && r.image.None?
  {
    TextShow(text, None, isFullScreen, canTapRemove, duration)
  }

  function SuccessRequest(text: string, isFullScreen: bool := false, canTapRemove: bool := false,
                          duration: int := PresetDurationMs): (r: ShowRequest)
    ensures Forwards(r, text, isFullScreen, canTapRemove, duration) && r.image == Some(SystemIcon("checkmark.circle.fill"))
  {
    TextShow(text, Some(SystemIcon("checkmark.circle.fill")), isFullScreen, canTapRemove, duration)
  }

  function ErrorRequest(text: string, isFullScreen: bool := false, canTapRemove: bool := false,
                        duration: int := PresetDurationMs): (r: ShowRequest)
    ensures Forwards(r, text, isFullScreen, canTapRemove, duration) && r.image == Some(SystemIcon("xmark.circle.fill"))
  {
    TextShow(text, Some(SystemIcon("xmark.circle.fill")), isFullScreen, canTapRemove, duration)
  }

  function WarningRequest(text: string, isFullScreen: bool := true, canTapRemove: bool := false,
                          duration: int := PresetDurationMs): (r: ShowRequest)
    ensures Forwards(r, text, isFullScreen, canTapRemove, duration) && r.image == Some(SystemIcon("exclamationmark.triangle.fill"))
  {
    TextShow(text, Some(SystemIcon("exclamationmark.triangle.fill")), isFullScreen, canTapRemove, duration)
  }

  function LoadingRequest(text: string := LoadingText, isFullScreen: bool := true,
                          canTapRemove: bool := false, duration: int := 0): (r: ShowRequest)
    ensures Forwards(r, text, isFullScreen, canTapRemove, duration) && r.image == Some(ActivityIndicator)
  {
    TextShow(text, Some(ActivityIndicator), isFullScreen, canTapRemove, duration)
  }

  // ---------------------------------------------------------------------
  // What the presets promise

  /** The success, error, warning and loading presets fix their image,
      whatever else the caller passes. */
  lemma PresetImagesFixed(text: string, isFullScreen: bool, canTapRemove: bool, duration: int)
    ensures ConfigOf(SuccessRequest(text, isFullScreen, canTapRemove, duration)).image
              == Some(SystemIcon("checkmark.circle.fill"))
    ensures ConfigOf(ErrorRequest(text, isFullScreen, canTapRemove, duration)).image
              == Some(SystemIcon("xmark.circle.fill"))
    ensures ConfigOf(WarningRequest(text, isFullScreen, canTapRemove, duration)).image
              == Some(SystemIcon("exclamationmark.triangle.fill"))
    ensures ConfigOf(LoadingRequest(text, isFullScreen, canTapRemove, duration)).image
              == Some(ActivityIndicator)
  {
  }

  /** showText and showTimed draw no image, and showFullScreen is always
      full screen. */
  lemma PlainPresetsHaveNoImage(text: string, isFullScreen: bool, canTapRemove: bool, duration: int)
    ensures var c := ConfigOf(TextRequest(text, isFullScreen, canTapRemove, duration));
      c.image.None? && c.customImage.None? && c.customContent.None?
    ensures var c := ConfigOf(TimedRequest(text, duration, isFullScreen, canTapRemove));
      c.image.None? && c.customImage.None? && c.customContent.None?
    ensures var c := ConfigOf(FullScreenRequest(text, canTapRemove, duration));
      c.image.None? && c.isFullScreen
  {
  }

  /** With its defaults, each of the six timed presets shows its toast for
      2 s: an accepted call arms a timer due 2000 ms later. */
  lemma TimedPresetDefaults(s: ManagerState, text: string, image: ImageType)
    requires text != ""
    ensures ShowStep(s, TextRequest(text)).autoHide == Some(Timer(s.epoch + 1, s.now + 2000))
    ensures ShowStep(s, ImageRequest(text, image)).autoHide == Some(Timer(s.epoch + 1, s.now + 2000))
    ensures ShowStep(s, AutoDismissRequest(text)).autoHide == Some(Timer(s.epoch + 1, s.now + 2000))
    ensures ShowStep(s, SuccessRequest(text)).autoHide == Some(Timer(s.epoch + 1, s.now + 2000))
    ensures ShowStep(s, ErrorRequest(text)).autoHide == Some(Timer(s.epoch + 1, s.now + 2000))
    ensures ShowStep(s, WarningRequest(text)).autoHide == Some(Timer(s.epoch + 1, s.now + 2000))
  {
  }

  /** showAutoDismiss defaults to full screen and tap-removable; showWarning
      defaults to full screen. */
  lemma FullScreenDefaults(text: string)
    ensures var c := ConfigOf(AutoDismissRequest(text)); c.isFullScreen && c.canTapRemove
    ensures var c := ConfigOf(WarningRequest(text)); c.isFullScreen && !c.canTapRemove
  {
  }

  /** showLoading with its defaults presents a full-screen spinner that a tap
      does not remove and that no timer ever hides. */
  lemma LoadingDefaults(s: ManagerState)
    ensures var r := ShowStep(s, LoadingRequest());
      && r.isPresenting
      && r.currentConfig == Some(Config(Some("加载中..."), Some(ActivityIndicator), None, None, true, false, 0))
      && r.autoHide.None?
      && TapStep(r) == r
  {
  }

  // ---------------------------------------------------------------------
  // The facade's calls on the manager

  /** show(text:image:...): forwards every argument unchanged. */
  method Show(m: Manager, text: string, image: Option<ImageType> := None, isFullScreen: bool := false,
              canTapRemove: bool := false, duration: int := 0)
    requires m.Valid()
    modifies m
    ensures m.Valid()
    ensures m.State() == ShowStep(old(m.State()), TextShow(text, image, isFullScreen, canTapRemove, duration))
  {
    m.Show(text, image, isFullScreen, canTapRemove, duration);
  }

  /** show(text:customImage:...): forwards every argument unchanged. */
  method ShowCustomImage(m: Manager, text: string, customImage: ViewToken, isFullScreen: bool := false,
                         canTapRemove: bool := false, duration: int := 0)
    requires m.Valid()
    modifies m
    ensures m.Valid()
    ensures m.State()
            == ShowStep(old(m.State()), CustomImageShow(text, customImage, isFullScreen, canTapRemove, duration))
  {
    m.ShowCustomImage(text, customImage, isFullScreen, canTapRemove, duration);
  }

  /** show(customContent:...): forwards every argument unchanged. */
  method ShowCustomContent(m: Manager, customContent: ViewToken, isFullScreen: bool := false,
                           canTapRemove: bool := false, duration: int := 0)
    requires m.Valid()
    modifies m
    ensures m.Valid()
    ensures m.State()
            == ShowStep(old(m.State()), CustomContentShow(customContent, isFullScreen, canTapRemove, duration))
  {
    m.ShowCustomContent(customContent, isFullScreen, canTapRemove, duration);
  }

  method ShowText(m: Manager, text: string, isFullScreen: bool := false, canTapRemove: bool := false,
                  duration: int := PresetDurationMs)
    requires m.Valid()
    modifies m
    ensures m.Valid()
    ensures m.State() == ShowStep(old(m.State()), TextRequest(text, isFullScreen, canTapRemove, duration))
  {
    Show(m, text, isFullScreen := isFullScreen, canTapRemove := canTapRemove, duration := duration);
  }

  method ShowImage(m: Manager, text: string, image: ImageType, isFullScreen: bool := false,
                   canTapRemove: bool := false, duration: int := PresetDurationMs)
    requires m.Valid()
    modifies m
    ensures m.Valid()
    ensures m.State() == ShowStep(old(m.State()), ImageRequest(text, image, isFullScreen, canTapRemove, duration))
  {
    Show(m, text, Some(image), isFullScreen, canTapRemove, duration);
  }

  method ShowAutoDismiss(m: Manager, text: string, image: Option<ImageType> := None, isFullScreen: bool := true,
                         canTapRemove: bool := true, duration: int := PresetDurationMs)
    requires m.Valid()
    modifies m
    ensures m.Valid()
    ensures m.State()
            == ShowStep(old(m.State()), AutoDismissRequest(text, image, isFullScreen, canTapRemove, duration))
  {
    Show(m, text, image, isFullScreen, canTapRemove, duration);
  }

  method ShowFullScreen(m: Manager, text: string, canTapRemove: bool := true, duration: int := 0)
    requires m.Valid()
    modifies m
    ensures m.Valid()
    ensures m.State() == ShowStep(old(m.State()), FullScreenRequest(text, canTapRemove, duration))
  {
    Show(m, text, isFullScreen := true, canTapRemove := canTapRemove, duration := duration);
  }

  method ShowTimed(m: Manager, text: string, duration: int, isFullScreen: bool := false,
                   canTapRemove: bool := false)
    requires m.Valid()
    modifies m
    ensures m.Valid()
    ensures m.State() == ShowStep(old(m.State()), TimedRequest(text, duration, isFullScreen, canTapRemove))
  {
    Show(m, text, isFullScreen := isFullScreen, canTapRemove := canTapRemove, duration := duration);
  }

  method ShowSuccess(m: Manager, text: string, isFullScreen: bool := false, canTapRemove: bool := false,
                     duration: int := PresetDurationMs)
    requires m.Valid()
    modifies m
    ensures m.Valid()
    ensures m.State() == ShowStep(old(m.State()), SuccessRequest(text, isFullScreen, canTapRemove, duration))
  {
    Show(m, text, Some(SystemIcon("checkmark.circle.fill")), isFullScreen, canTapRemove, duration);
  }

  method ShowError(m: Manager, text: string, isFullScreen: bool := false, canTapRemove: bool := false,
                   duration: int := PresetDurationMs)
    requires m.Valid()
    modifies m
    ensures m.Valid()
    ensures m.State() == ShowStep(old(m.State()), ErrorRequest(text, isFullScreen, canTapRemove, duration))
  {
    Show(m, text, Some(SystemIcon("xmark.circle.fill")), isFullScreen, canTapRemove, duration);
  }

  method ShowWarning(m: Manager, text: string, isFullScreen: bool := true, canTapRemove: bool := false,
                     duration: int := PresetDurationMs)
    requires m.Valid()
    modifies m
    ensures m.Valid()
    ensures m.State() == ShowStep(old(m.State()), WarningRequest(text, isFullScreen, canTapRemove, duration))
  {
    Show(m, text, Some(SystemIcon("exclamationmark.triangle.fill")), isFullScreen, canTapRemove, duration);
  }

  method ShowLoading(m: Manager, text: string := LoadingText, isFullScreen: bool := true,
                     canTapRemove: bool := false, duration: int := 0)
    requires m.Valid()
    modifies m
    ensures m.Valid()
    ensures m.State() == ShowStep(old(m.State()), LoadingRequest(text, isFullScreen, canTapRemove, duration))
  {
    Show(m, text, Some(ActivityIndicator), isFullScreen, canTapRemove, duration);
  }

  method Dismiss(m: Manager)
    requires m.Valid()
    modifies m
    ensures m.Valid()
    ensures m.State() == DismissStep(old(m.State()))
  {
    m.Dismiss();
  }

  /** The isPresenting query reads the manager's flag. */
  function IsPresenting(m: Manager): (r: bool)
    reads m
    ensures r <==> m.State().isPresenting
  {
    m.isPresenting
  }

  /** The currentConfig query reads the manager's slot. */
  function CurrentConfig(m: Manager): (r: Option<Config>)
    reads m
    ensures r == m.State().currentConfig
  {
    m.currentConfig
  }
}
