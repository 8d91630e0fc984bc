/** config.js: the global `AnimationConfig` object that picks the animation
    library for a deployment, grades the device, honours reduced motion and
    loads the chosen library. */
module BranchConfig {
  import opened JsRuntime

  /** What the page offers the object: the decoded query string, the hostname,
      the content of `<meta name="branch">` (None when there is no such tag),
      the navigator and the `(prefers-reduced-motion: reduce)` media query. */
  datatype Page = Page(
    search: QueryParams,
    hostname: string,
    branchMeta: Option<string>,
    navigator: Navigator,
    prefersReducedMotion: bool)

  /** The localStorage key of the A/B override. */
  const LibraryKey := "animationLibrary"

  const LibraryAttribute := "data-animation-library"
  const PerformanceAttribute := "data-performance-mode"

  predicate StoredPreference(stored: map<string, string>) {
    LibraryKey in stored && stored[LibraryKey] != ""
  }

  predicate IsLocalHost(hostname: string) {
    Includes(hostname, "localhost") || Includes(hostname, "127.0.0.1")
  }

  /** `detectBranch()`: URL parameter, then stored preference, then hostname. */
  function DetectBranch(page: Page, stored: map<string, string>): (library: string)
    ensures QueryHas(page.search, "animation") ==> Some(library) == QueryGet(page.search, "animation")
    ensures !QueryHas(page.search, "animation") && StoredPreference(stored) ==> library == stored[LibraryKey]
    ensures !QueryHas(page.search, "animation") && !StoredPreference(stored) ==>
              && (Includes(page.hostname, "anime-enhanced") ==> library == "anime")
              && (!Includes(page.hostname, "anime-enhanced") && !IsLocalHost(page.hostname) ==> library == "vanilla")
              && (!Includes(page.hostname, "anime-enhanced") && IsLocalHost(page.hostname) ==>
                    library == (if page.branchMeta.Some? then page.branchMeta.value else "vanilla"))
  {
    if QueryHas(page.search, "animation") then
      QueryGet(page.search, "animation").value
    else if StoredPreference(stored) then
      stored[LibraryKey]
    else if Includes(page.hostname, "anime-enhanced") then
      "anime"
    else if IsLocalHost(page.hostname) then
      if page.branchMeta.Some? then page.branchMeta.value else "vanilla"
    else
      "vanilla"
  }

  /** After `setTestVariant(v)` a page without an `animation` parameter picks `v`
      (a stored empty string is falsy and would not count). */
  lemma StoredVariantIsDetected(page: Page, stored: map<string, string>, v: string)
    requires !QueryHas(page.search, "animation") && v != ""
    ensures DetectBranch(page, stored[LibraryKey := v]) == v
  {
  }

  /** After `clearTestVariant()` the rest of localStorage plays no part. */
  lemma ClearedVariantIsForgotten(page: Page, stored: map<string, string>)
    ensures DetectBranch(page, stored - {LibraryKey}) == DetectBranch(page, map[])
  {
  }

  /** The device is graded `high` exactly when this holds: the `score` of
      detectPerformance reaches 5. */
  predicate HighCapability(nav: Navigator) {
    var memoryOk := DeviceMemoryOrDefault(nav) >= 4.0;
    var coresOk := ConcurrencyOrDefault(nav) >= 4;
    nav.connection.Some? &&
    ((memoryOk && coresOk) || (nav.connection.value.effectiveType == Some("4g") && (memoryOk || coresOk)))
  }

  datatype Settings = Settings(
    animationLibrary: string,
    enableAnimations: bool,
    respectMotionPreference: bool,
    performanceMode: string,
    debugMode: bool)

  /** The argument of `updateConfig`: None for a key the caller leaves out. */
  datatype SettingsUpdate = SettingsUpdate(
    animationLibrary: Option<string>,
    enableAnimations: Option<bool>,
    respectMotionPreference: Option<bool>,
    performanceMode: Option<string>,
    debugMode: Option<bool>)

  class AnimationConfig {
    var animationLibrary: string
    var enableAnimations: bool
    var respectMotionPreference: bool
    var performanceMode: string
    var debugMode: bool

    /** The `config` literal. */
    constructor ()
      ensures Config() == Settings("vanilla", true, true, "auto", false)
    {
      animationLibrary := "vanilla";
      enableAnimations := true;
      respectMotionPreference := true;
      performanceMode := "auto";
      debugMode := false;
    }

    /** `getConfig()` */
    function Config(): Settings
      reads this
    {
      Settings(animationLibrary, enableAnimations, respectMotionPreference, performanceMode, debugMode)
    }

    /** `detectPerformance()`: a fixed mode is returned as it is; `auto` grades
        the device, and without connection information the grade is `low`. */
    method DetectPerformance(nav: Navigator) returns (mode: string)
      ensures performanceMode != "auto" ==> mode == performanceMode
      ensures performanceMode == "auto" ==> (mode == "high" || mode == "low")
      ensures performanceMode == "auto" ==> (mode == "high" <==> HighCapability(nav))
      ensures performanceMode == "auto" && nav.connection.None? ==> mode == "low"
    {
      if performanceMode != "auto" {
        return performanceMode;
      }
      var memory := DeviceMemoryOrDefault(nav);
      var cores := ConcurrencyOrDefault(nav);
      var score := 0;
      score := score + (if memory >= 4.0 then 2 else 1);
      score := score + (if cores >= 4 then 2 else 1);
      if nav.connection.Some? {
        score := score + (if nav.connection.value.effectiveType == Some("4g") then 2 else 1);
      }
      mode := if score >= 5 then "high" else "low";
    }

    /** `detectMotionPreference()` */
    function DetectMotionPreference(page: Page): (reduce: bool)
      reads this
      ensures reduce <==> respectMotionPreference && page.prefersReducedMotion
    {
      if !respectMotionPreference then false else page.prefersReducedMotion
    }

    /** `init()`: detects the library and the performance mode, switches
        animations off for reduced motion (never back on) and marks the body. */
    method Init(page: Page, local: WebStorage<string>, body: DocumentBody) returns (settings: Settings)
      modifies this, body
      ensures animationLibrary == DetectBranch(page, local.items)
      ensures old(performanceMode) != "auto" ==> performanceMode == old(performanceMode)
      ensures old(performanceMode) == "auto" ==>
                && (performanceMode == "high" || performanceMode == "low")
                && (performanceMode == "high" <==> HighCapability(page.navigator))
      ensures enableAnimations == (old(enableAnimations) && !(old(respectMotionPreference) && page.prefersReducedMotion))
      ensures respectMotionPreference == old(respectMotionPreference) && debugMode == old(debugMode)
      ensures body.attributes == old(body.attributes)[LibraryAttribute := animationLibrary][PerformanceAttribute := performanceMode]
      ensures settings == Config()
    {
      var detected := DetectBranch(page, local.items);
      animationLibrary := detected;
      performanceMode := DetectPerformance(page.navigator);
      if DetectMotionPreference(page) {
        enableAnimations := false;
      }
      body.SetAttribute(LibraryAttribute, detected);
      body.SetAttribute(PerformanceAttribute, performanceMode);
      settings := Config();
    }

    /** `loadAnimationLibrary()`. The promise always resolves; `scriptLoads` says
        whether the anime.js script fires `onload` (true) or `onerror` (false). */
    method LoadAnimationLibrary(scriptLoads: bool) returns (resolved: string)
      modifies this`animationLibrary
      ensures resolved == "animations-disabled" || resolved == "anime" || resolved == "vanilla"
      ensures !enableAnimations ==> resolved == "animations-disabled" && animationLibrary == old(animationLibrary)
      ensures enableAnimations && old(animationLibrary) == "anime" ==>
                if scriptLoads then resolved == "anime" && animationLibrary == "anime"
                else resolved == "vanilla" && animationLibrary == "vanilla"
      ensures enableAnimations && old(animationLibrary) != "anime" ==>
                resolved == "vanilla" && animationLibrary == old(animationLibrary)
    {
      if !enableAnimations {
        return "animations-disabled";
      }
      if animationLibrary == "anime" {
        if scriptLoads {
          resolved := "anime";
        } else {
          animationLibrary := "vanilla";
          resolved := "vanilla";
        }
      } else {
        resolved := "vanilla";
      }
    }

    /** `updateConfig(updates)`: `Object.assign` of the supplied keys, then the
        body attributes are written again. */
    method UpdateConfig(updates: SettingsUpdate, body: DocumentBody)
      modifies this, body
      ensures animationLibrary == (if updates.animationLibrary.Some? then updates.animationLibrary.value else old(animationLibrary))
      ensures enableAnimations == (if updates.enableAnimations.Some? then updates.enableAnimations.value else old(enableAnimations))
      ensures respectMotionPreference ==
                (if updates.respectMotionPreference.Some? then updates.respectMotionPreference.value else old(respectMotionPreference))
      ensures performanceMode == (if updates.performanceMode.Some? then updates.performanceMode.value else old(performanceMode))
      ensures debugMode == (if updates.debugMode.Some? then updates.debugMode.value else old(debugMode))
      ensures body.attributes == old(body.attributes)[LibraryAttribute := animationLibrary][PerformanceAttribute := performanceMode]
    {
      if updates.animationLibrary.Some? { animationLibrary := updates.animationLibrary.value; }
      if updates.enableAnimations.Some? { enableAnimations := updates.enableAnimations.value; }
      if updates.respectMotionPreference.Some? { respectMotionPreference := updates.respectMotionPreference.value; }
      if updates.performanceMode.Some? { performanceMode := updates.performanceMode.value; }
      if updates.debugMode.Some? { debugMode := updates.debugMode.value; }
      body.SetAttribute(LibraryAttribute, animationLibrary);
      body.SetAttribute(PerformanceAttribute, performanceMode);
    }

    /** `setTestVariant(variant)`, without the page reload. */
    method SetTestVariant(variant: string, local: WebStorage<string>)
      modifies this`animationLibrary, local
      ensures local.items == old(local.items)[LibraryKey := variant]
      ensures animationLibrary == variant
    {
      local.SetItem(LibraryKey, variant);
      animationLibrary := variant;
    }

    /** `clearTestVariant()`, without the page reload. */
    method ClearTestVariant(local: WebStorage<string>)
      modifies local
      ensures local.items == old(local.items) - {LibraryKey}
    {
      local.RemoveItem(LibraryKey);
    }
  }
}
