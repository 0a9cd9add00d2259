/**
 * RuntimeDetection: classifies the runtime the tests run on from a target-framework name.
 * The operating system and framework descriptions, the compile-time NETFRAMEWORK switch, the
 * AppDomain setup and the entry assembly's TargetFrameworkAttribute are inputs.
 */
module RuntimeDetectionModel {
  import opened Wrappers

  /** RuntimeDetection.RuntimeFramework in declaration order. */
  datatype RuntimeFramework = Unknown | DotNetCore | DotNetFramework

  /** Enum.ToString(), the text stamped into every event's Runtime property. */
  function FrameworkName(f: RuntimeFramework): (s: string)
    ensures s != []
  {
    match f
    case Unknown => "Unknown"
    case DotNetCore => "DotNetCore"
    case DotNetFramework => "DotNetFramework"
  }

  lemma FrameworkNamesDistinct(a: RuntimeFramework, b: RuntimeFramework)
    ensures FrameworkName(a) == FrameworkName(b) <==> a == b
  {
  }

  /** `sub` occurs in `s` starting at index i. */
  predicate OccursAt(s: string, sub: string, i: nat)
  {
    i + |sub| <= |s| && s[i..i + |sub|] == sub
  }

  /** string.Contains (ordinal). */
  function Contains(s: string, sub: string): bool
  {
    if |sub| > |s| then false
    else if s[..|sub|] == sub then true
    else Contains(s[1..], sub)
  }

  /** Contains finds an occurrence exactly when there is one. */
  lemma {:induction false} ContainsIff(s: string, sub: string)
    ensures Contains(s, sub) <==> exists i: nat :: OccursAt(s, sub, i)
  {
    if |sub| > |s| {
      assert forall i: nat :: !OccursAt(s, sub, i);
    } else if s[..|sub|] == sub {
      assert OccursAt(s, sub, 0);
    } else {
      ContainsIff(s[1..], sub);
      if Contains(s[1..], sub) {
        var i: nat :| OccursAt(s[1..], sub, i);
        assert s[i + 1..i + 1 + |sub|] == s[1..][i..i + |sub|];
        assert OccursAt(s, sub, i + 1);
      } else {
        forall i: nat | OccursAt(s, sub, i) ensures false {
          if i > 0 {
            assert s[1..][i - 1..i - 1 + |sub|] == s[i..i + |sub|];
            assert OccursAt(s[1..], sub, i - 1);
          }
        }
      }
    }
  }

  const CoreMarker: string := ".NETCoreApp"
  const FrameworkMarker: string := ".NETFramework"

  /** The host the detection runs on. */
  datatype Host = Host(
    compiledForNetFramework: bool,          // the NETFRAMEWORK compilation symbol
    appDomainTargetFramework: Option<string>, // AppDomain.CurrentDomain.SetupInformation.TargetFrameworkName
    osDescription: string,                  // RuntimeInformation.OSDescription
    frameworkDescription: string)           // RuntimeInformation.FrameworkDescription

  /** The entry assembly, by the FrameworkName of its TargetFrameworkAttribute (None when absent). */
  datatype Assembly = Assembly(targetFrameworkName: Option<string>)

  /**
   * The framework name the classification looks at: on a .NET Framework build without an
   * entry assembly, the AppDomain's; the entry assembly's attribute only if that is still null.
   */
  function FrameworkInput(entryAssembly: Option<Assembly>, host: Host): (name: Option<string>)
    ensures host.compiledForNetFramework && entryAssembly.None? ==> name == host.appDomainTargetFramework
    ensures !(host.compiledForNetFramework && entryAssembly.None?) ==>
      name == (if entryAssembly.None? then None else entryAssembly.value.targetFrameworkName)
  {
    var fromAppDomain := if host.compiledForNetFramework && entryAssembly.None?
                         then host.appDomainTargetFramework else None;
    if fromAppDomain.Some? then fromAppDomain
    else if entryAssembly.None? then None
    else entryAssembly.value.targetFrameworkName
  }

  /**
   * The classification as a rule rather than as overwriting steps: a name mentioning
   * .NETFramework is DotNetFramework, else one mentioning .NETCoreApp is DotNetCore, else the
   * value already there stays.
   */
  function Classify(current: RuntimeFramework, name: Option<string>): (r: RuntimeFramework)
    ensures name.Some? && Contains(name.value, FrameworkMarker) ==> r == DotNetFramework
    ensures name.Some? && Contains(name.value, CoreMarker) && !Contains(name.value, FrameworkMarker)
            ==> r == DotNetCore
    ensures (name.None? || (!Contains(name.value, CoreMarker) && !Contains(name.value, FrameworkMarker)))
            ==> r == current
  {
    if name.Some? && Contains(name.value, FrameworkMarker) then DotNetFramework
    else if name.Some? && Contains(name.value, CoreMarker) then DotNetCore
    else current
  }

  /** Starting from a known framework, the classification never yields Unknown. */
  lemma ClassifyNeverUnknown(current: RuntimeFramework, name: Option<string>)
    requires current != Unknown
    ensures Classify(current, name) != Unknown
  {
  }

  /** The value before the substring checks: DotNetFramework on the AppDomain path. */
  function StartingValue(current: RuntimeFramework, entryAssembly: Option<Assembly>, host: Host): RuntimeFramework
  {
    if host.compiledForNetFramework && entryAssembly.None? then DotNetFramework else current
  }

  class RuntimeDetection {
    const entryAssembly: Option<Assembly>
    var detectedRuntimePlatform: string
    var detectedRuntimeFramework: RuntimeFramework
    var detectedRuntimeFrameworkDescription: string

    /** RuntimeDetection(Assembly): DetectedRuntimeFramework starts as DotNetFramework, then DetectRuntime. */
    constructor(entryAssembly: Option<Assembly>, host: Host)
      ensures this.entryAssembly == entryAssembly
      ensures detectedRuntimeFramework == Classify(DotNetFramework, FrameworkInput(entryAssembly, host))
      ensures detectedRuntimeFramework != Unknown
      ensures detectedRuntimePlatform == host.osDescription
      ensures detectedRuntimeFrameworkDescription == host.frameworkDescription
    {
      this.entryAssembly := entryAssembly;
      detectedRuntimePlatform := "";
      detectedRuntimeFramework := DotNetFramework;
      detectedRuntimeFrameworkDescription := "";
      new;
      DetectRuntime(host);
      ClassifyNeverUnknown(DotNetFramework, FrameworkInput(entryAssembly, host));
    }

    method DetectRuntime(host: Host)
      modifies this
      ensures detectedRuntimeFramework
              == Classify(StartingValue(old(detectedRuntimeFramework), entryAssembly, host),
                          FrameworkInput(entryAssembly, host))
      ensures detectedRuntimePlatform == host.osDescription
      ensures detectedRuntimeFrameworkDescription == host.frameworkDescription
    {
      var framework: Option<string> := None;
      detectedRuntimePlatform := host.osDescription;
      detectedRuntimeFrameworkDescription := host.frameworkDescription;
      if host.compiledForNetFramework && entryAssembly.None? {
        detectedRuntimeFramework := DotNetFramework;
        framework := host.appDomainTargetFramework;
      }
      if framework.None? {
        framework := if entryAssembly.None? then None else entryAssembly.value.targetFrameworkName;
      }
      if framework.Some? && Contains(framework.value, CoreMarker) {
        detectedRuntimeFramework := DotNetCore;
      }
      if framework.Some? && Contains(framework.value, FrameworkMarker) {
        detectedRuntimeFramework := DotNetFramework;
      }
    }
  }

  /** A name carrying both markers is classified by the last check, .NETFramework. */
  lemma FrameworkMarkerWins(current: RuntimeFramework, name: string)
    requires Contains(name, CoreMarker) && Contains(name, FrameworkMarker)
    ensures Classify(current, Some(name)) == DotNetFramework
  {
  }

  /** ".NETCoreApp,Version=v2.1" (the example in the source) contains the core marker. */
  lemma CoreAppExample()
    ensures Contains(".NETCoreApp,Version=v2.1", CoreMarker)
  {
    assert ".NETCoreApp,Version=v2.1"[..|CoreMarker|] == CoreMarker;
  }
}
