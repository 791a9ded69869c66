/** The value that describes one toast request (Y_ToastConfig) and the
    kinds of image it can carry (Y_ToastImageType).

    View-building closures cannot be compared or inspected, so each one is
    modelled as an opaque ViewToken: two closures are the same closure only
    when their tokens are equal.  Durations are whole milliseconds. */
module ToastConfig {

  datatype Option<+T> = None | Some(value: T)

  /** Identity of an opaque view-building closure. */
  type ViewToken = nat

  /** Y_ToastImageType: an SF Symbol, a bundled image, or a spinner. */
  datatype ImageType =
    | SystemIcon(systemName: string)
    | ImageName(imageName: string)
    | ActivityIndicator

  /** Y_ToastConfig.  duration is in milliseconds; 0 or less means the toast
      stays until it is dismissed or replaced. */
  datatype Config = Config(
    text: Option<string>,
    image: Option<ImageType>,
    customImage: Option<ViewToken>,
    customContent: Option<ViewToken>,
    isFullScreen: bool,
    canTapRemove: bool,
    duration: int)

  /** The shapes the three initializers produce: full custom content carries
      nothing else; otherwise there is a text and at most one of the two
      leading images. */
  predicate WellFormed(c: Config) {
    if c.customContent.Some? then
      c.text.None? && c.image.None? && c.customImage.None?
    else
      c.text.Some? && (c.image.None? || c.customImage.None?)
  }

  /** The text-and-image initializer. */
  function WithImage(text: string, image: Option<ImageType> := None, isFullScreen: bool := false,
                     canTapRemove: bool := false, duration: int := 0): (c: Config)
    ensures WellFormed(c)
    ensures c.text == Some(text) && c.image == image
    ensures c.customImage.None? && c.customContent.None?
    ensures c.isFullScreen == isFullScreen && c.canTapRemove == canTapRemove && c.duration == duration
  {
    Config(Some(text), image, None, None, isFullScreen, canTapRemove, duration)
  }

  /** The text-and-custom-image initializer. */
  function WithCustomImage(text: string, customImage: ViewToken, isFullScreen: bool := false,
                           canTapRemove: bool := false, duration: int := 0): (c: Config)
    ensures WellFormed(c)
    ensures c.text == Some(text) && c.image.None?
    ensures c.customImage == Some(customImage) && c.customContent.None?
    ensures c.isFullScreen == isFullScreen && c.canTapRemove == canTapRemove && c.duration == duration
  {
    Config(Some(text), None, Some(customImage), None, isFullScreen, canTapRemove, duration)
  }

  /** The full-custom-content initializer. */
  function WithCustomContent(customContent: ViewToken, isFullScreen: bool := false,
                             canTapRemove: bool := false, duration: int := 0): (c: Config)
    ensures WellFormed(c)
    ensures c.text.None? && c.image.None? && c.customImage.None?
    ensures c.customContent == Some(customContent)
    ensures c.isFullScreen == isFullScreen && c.canTapRemove == canTapRemove && c.duration == duration
  {
    Config(None, None, None, Some(customContent), isFullScreen, canTapRemove, duration)
  }

  /** A config is one of the initializers' results, with its own flags and duration. */
  ghost predicate Constructible(c: Config) {
    || (exists text, image :: c == WithImage(text, image, c.isFullScreen, c.canTapRemove, c.duration))
    || (exists text, token :: c == WithCustomImage(text, token, c.isFullScreen, c.canTapRemove, c.duration))
    || (exists token :: c == WithCustomContent(token, c.isFullScreen, c.canTapRemove, c.duration))
  }

  /** WellFormed describes exactly the configs the initializers can build. */
  lemma WellFormedIffConstructible(c: Config)
    ensures WellFormed(c) <==> Constructible(c)
  {
    if WellFormed(c) {
      if c.customContent.Some? {
        assert c == WithCustomContent(c.customContent.value, c.isFullScreen, c.canTapRemove, c.duration);
      } else if c.customImage.Some? {
        assert c == WithCustomImage(c.text.value, c.customImage.value, c.isFullScreen, c.canTapRemove, c.duration);
      } else {
        assert c == WithImage(c.text.value, c.image, c.isFullScreen, c.canTapRemove, c.duration);
      }
    }
  }

  /** No initializer fills more than one of the three content slots. */
  lemma WellFormedContentExclusive(c: Config)
    requires WellFormed(c)
    ensures c.image.Some? ==> c.customImage.None? && c.customContent.None?
    ensures c.customImage.Some? ==> c.image.None? && c.customContent.None?
    ensures c.customContent.Some? ==> c.image.None? && c.customImage.None? && c.text.None?
  {
  }

  /** The synthesized == of Y_ToastImageType. */
  function ImageEquals(a: ImageType, b: ImageType): (r: bool)
    ensures r <==> a == b
  {
    match (a, b)
    case (SystemIcon(x), SystemIcon(y)) => x == y
    case (ImageName(x), ImageName(y)) => x == y
    case (ActivityIndicator, ActivityIndicator) => true
    case _ => false
  }

  /** == on Y_ToastImageType? (two nils are equal, nil differs from a value). */
  function OptionalImageEquals(a: Option<ImageType>, b: Option<ImageType>): (r: bool)
    ensures r <==> a == b
  {
    match (a, b)
    case (None, None) => true
    case (Some(x), Some(y)) => ImageEquals(x, y)
    case _ => false
  }

  /** Image equality is structural: same case and same payload. */
  lemma ImageEqualsIsStructural(a: ImageType, b: ImageType)
    ensures ImageEquals(a, b) <==> a == b
    ensures ImageEquals(a, b) <==> (a.SystemIcon? && b.SystemIcon? && a.systemName == b.systemName)
                                   || (a.ImageName? && b.ImageName? && a.imageName == b.imageName)
                                   || (a.ActivityIndicator? && b.ActivityIndicator?)
  {
  }

  /** The hand-written == of Y_ToastConfig: the closures are compared only
      by whether they are present. */
  function Equals(a: Config, b: Config): (r: bool)
    ensures a == b ==> r
    ensures r ==> a.text == b.text && a.image == b.image && a.duration == b.duration
    ensures r ==> a.isFullScreen == b.isFullScreen && a.canTapRemove == b.canTapRemove
  {
    && a.text == b.text
    && OptionalImageEquals(a.image, b.image)
    && a.isFullScreen == b.isFullScreen
    && a.canTapRemove == b.canTapRemove
    && a.duration == b.duration
    && (a.customImage.None? == b.customImage.None?)
    && (a.customContent.None? == b.customContent.None?)
  }

  /** A config with each closure replaced by a presence flag. */
  datatype ErasedConfig = ErasedConfig(
    text: Option<string>,
    image: Option<ImageType>,
    hasCustomImage: bool,
    hasCustomContent: bool,
    isFullScreen: bool,
    canTapRemove: bool,
    duration: int)

  function Erase(c: Config): ErasedConfig {
    ErasedConfig(c.text, c.image, c.customImage.Some?, c.customContent.Some?,
                 c.isFullScreen, c.canTapRemove, c.duration)
  }

  /** == holds exactly when the two configs agree once their closures are
      forgotten. */
  lemma EqualsIffSameErasure(a: Config, b: Config)
    ensures Equals(a, b) <==> Erase(a) == Erase(b)
  {
    match (a.image, b.image)
    case (Some(x), Some(y)) => ImageEqualsIsStructural(x, y);
    case _ =>
  }

  /** == is an equivalence relation (durations are exact, so there is no NaN). */
  lemma EqualsIsEquivalence(a: Config, b: Config, c: Config)
    ensures Equals(a, a)
    ensures Equals(a, b) <==> Equals(b, a)
    ensures Equals(a, b) && Equals(b, c) ==> Equals(a, c)
  {
    EqualsIffSameErasure(a, a);
    EqualsIffSameErasure(a, b);
    EqualsIffSameErasure(b, a);
    EqualsIffSameErasure(b, c);
    EqualsIffSameErasure(a, c);
  }

  /** Two configs built by the same initializer from different closures
      are equal under ==, though they are different values. */
  lemma EqualsIgnoresClosureIdentity(text: string, t1: ViewToken, t2: ViewToken,
                                     isFullScreen: bool, canTapRemove: bool, duration: int)
    ensures var a := WithCustomImage(text, t1, isFullScreen, canTapRemove, duration);
            var b := WithCustomImage(text, t2, isFullScreen, canTapRemove, duration);
            Equals(a, b) && (a == b <==> t1 == t2)
    ensures var a := WithCustomContent(t1, isFullScreen, canTapRemove, duration);
            var b := WithCustomContent(t2, isFullScreen, canTapRemove, duration);
            Equals(a, b) && (a == b <==> t1 == t2)
  {
  }
}
