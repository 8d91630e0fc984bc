/** js/shared/config.js: the `AnimationConfig` class that fixes the animation
    type once, at construction, and counts executed animations. */
module SharedAnimationConfig {
  import opened JsRuntime

  /** `detectAnimationType()`: only the exact string `true` forces a type, and
      `anime=true` wins over `vanilla=true`. */
  function DetectAnimationType(search: QueryParams, hostname: string): (animationType: string)
    ensures animationType == "anime" || animationType == "vanilla"
    ensures QueryGet(search, "anime") == Some("true") ==> animationType == "anime"
    ensures animationType == "anime" <==>
              QueryGet(search, "anime") == Some("true") ||
              (QueryGet(search, "vanilla") != Some("true") && Includes(hostname, "anime-animations"))
  {
    var forceAnime := QueryGet(search, "anime") == Some("true");
    var forceVanilla := QueryGet(search, "vanilla") == Some("true");
    if forceAnime then "anime"
    else if forceVanilla then "vanilla"
    else if Includes(hostname, "anime-animations") then "anime"
    else "vanilla"
  }

  datatype Capabilities = Capabilities(
    supportsIntersectionObserver: bool,
    supportsRequestAnimationFrame: bool,
    deviceMemory: real,
    hardwareConcurrency: int,
    connection: Option<Connection>)

  /** `getDeviceCapabilities()`; the two feature tests are passed in. */
  function GetDeviceCapabilities(nav: Navigator, hasIntersectionObserver: bool,
                                 hasRequestAnimationFrame: bool): (caps: Capabilities)
    ensures caps.supportsIntersectionObserver == hasIntersectionObserver
    ensures caps.supportsRequestAnimationFrame == hasRequestAnimationFrame
    ensures nav.deviceMemory.None? || nav.deviceMemory == Some(0.0) ==> caps.deviceMemory == 4.0
    ensures nav.hardwareConcurrency.None? || nav.hardwareConcurrency == Some(0) ==> caps.hardwareConcurrency == 4
    ensures nav.deviceMemory.Some? && nav.deviceMemory.value != 0.0 ==> caps.deviceMemory == nav.deviceMemory.value
    ensures nav.hardwareConcurrency.Some? && nav.hardwareConcurrency.value != 0 ==>
              caps.hardwareConcurrency == nav.hardwareConcurrency.value
    ensures caps.connection == nav.connection
  {
    Capabilities(hasIntersectionObserver, hasRequestAnimationFrame,
                 DeviceMemoryOrDefault(nav), ConcurrencyOrDefault(nav), nav.connection)
  }

  class AnimationConfig {
    const animationType: string
    var startTime: real
    var animationFrames: nat
    var totalAnimations: nat

    predicate Valid() {
      animationType == "anime" || animationType == "vanilla"
    }

    /** `new AnimationConfig()`; `now` is `performance.now()`. */
    constructor (search: QueryParams, hostname: string, now: real)
      ensures Valid()
      ensures animationType == DetectAnimationType(search, hostname)
      ensures startTime == now && animationFrames == 0 && totalAnimations == 0
    {
      animationType := DetectAnimationType(search, hostname);
      startTime := now;
      animationFrames := 0;
      totalAnimations := 0;
    }

    method GetAnimationType() returns (t: string)
      requires Valid()
      ensures t == animationType
      ensures t == "anime" || t == "vanilla"
    {
      t := animationType;
    }

    /** `trackAnimation(name, duration, elements)`: one more animation counted. */
    method TrackAnimation(name: string, duration: real, elements: int)
      modifies this`totalAnimations
      ensures totalAnimations == old(totalAnimations) + 1
      ensures animationFrames == old(animationFrames) && startTime == old(startTime)
    {
      totalAnimations := totalAnimations + 1;
    }
  }
}
