/** The application configuration (backend/utils/config.py): the resource
    limits and the registry of supported frameworks with their two lookups. */
module Config {
  import opened Wrappers
  import opened Text

  /** Default upper bounds of a resource request (MAX_CPU_CORES,
      MAX_MEMORY_MB, MAX_DISK_GB when the environment does not set them). */
  const MaxCpuCores: nat := 8
  const MaxMemoryMb: nat := 16384
  const MaxDiskGb: nat := 500

  datatype Language = Python | Javascript | Php | Java

  /** One registry entry: the language of the framework and the port its
      application listens on. */
  datatype FrameworkInfo = FrameworkInfo(language: Language, port: nat)

  /** SUPPORTED_FRAMEWORKS; every key is lower case. */
  const SupportedFrameworks: map<string, FrameworkInfo> := map[
    "django" := FrameworkInfo(Python, 8000),
    "flask" := FrameworkInfo(Python, 5000),
    "fastapi" := FrameworkInfo(Python, 8000),
    "nodejs" := FrameworkInfo(Javascript, 3000),
    "express" := FrameworkInfo(Javascript, 3000),
    "react" := FrameworkInfo(Javascript, 3000),
    "vue" := FrameworkInfo(Javascript, 8080),
    "nextjs" := FrameworkInfo(Javascript, 3000),
    "laravel" := FrameworkInfo(Php, 8000),
    "symfony" := FrameworkInfo(Php, 8000),
    "springboot" := FrameworkInfo(Java, 8080)
  ]

  const FrameworkNames: set<string> := {
    "django", "flask", "fastapi", "nodejs", "express", "react", "vue",
    "nextjs", "laravel", "symfony", "springboot"
  }

  /** The ports a registered framework can listen on. */
  const RegistryPorts: set<nat> := {3000, 5000, 8000, 8080}

  /** `get_framework_info`: the entry registered under the lower case form of
      `framework`, or None. */
  function GetFrameworkInfo(framework: string): (info: Option<FrameworkInfo>)
    ensures info.Some? <==> Lower(framework) in FrameworkNames
    ensures info.Some? ==> info.value.port in RegistryPorts
    ensures info.Some? ==> info.value == SupportedFrameworks[Lower(framework)]
  {
    var key := Lower(framework);
    if key in SupportedFrameworks then Some(SupportedFrameworks[key]) else None
  }

  /** `is_framework_supported`: the lower case form of `framework` is a key
      of the registry, which is exactly when `get_framework_info` finds an
      entry. */
  predicate IsFrameworkSupported(framework: string)
    ensures IsFrameworkSupported(framework) <==> GetFrameworkInfo(framework).Some?
    ensures IsFrameworkSupported(framework) <==> Lower(framework) in FrameworkNames
  {
    Lower(framework) in SupportedFrameworks
  }

  /** The registry holds exactly the eleven names of FrameworkNames. */
  lemma RegistryShape()
    ensures SupportedFrameworks.Keys == FrameworkNames
    ensures |SupportedFrameworks| == 11
  {
    FrameworkCount();
  }

  /** Every registered name is written in lower case, so it is found under
      its own spelling. */
  lemma RegistryKeysAreLowerCase()
    ensures forall name :: name in FrameworkNames ==> Lower(name) == name && IsFrameworkSupported(name)
  {
    forall name | name in FrameworkNames ensures Lower(name) == name {
      LowerOfLowerCase(name);
    }
  }

  /** The eleven names are pairwise distinct. */
  lemma FrameworkCount()
    ensures |FrameworkNames| == 11
  {
    assert "flask" !in {"django"};
    assert "fastapi" !in {"django", "flask"};
    assert "nodejs" !in {"django", "flask", "fastapi"};
    assert "express" !in {"django", "flask", "fastapi", "nodejs"};
    assert "react" !in {"django", "flask", "fastapi", "nodejs", "express"};
    assert "vue" !in {"django", "flask", "fastapi", "nodejs", "express", "react"};
    assert "nextjs" !in {"django", "flask", "fastapi", "nodejs", "express", "react", "vue"};
    assert "laravel" !in {"django", "flask", "fastapi", "nodejs", "express", "react", "vue", "nextjs"};
    assert "symfony" !in {"django", "flask", "fastapi", "nodejs", "express", "react", "vue", "nextjs", "laravel"};
    assert "springboot" !in {"django", "flask", "fastapi", "nodejs", "express", "react", "vue", "nextjs", "laravel", "symfony"};
  }

  /** A string without upper case letters (nor the Kelvin sign) is its own
      lower case form. */
  lemma {:induction false} LowerOfLowerCase(s: string)
    requires forall i :: 0 <= i < |s| ==> 'a' <= s[i] <= 'z'
    ensures Lower(s) == s
  {
    if s != [] {
      LowerOfLowerCase(s[1..]);
    }
  }

  /** Both lookups ignore case: `f` and `f.lower()` give the same answers,
      and so do any two spellings that agree once lowered. */
  lemma LookupIgnoresCase(f: string, g: string)
    requires Lower(f) == Lower(g)
    ensures GetFrameworkInfo(f) == GetFrameworkInfo(g)
    ensures IsFrameworkSupported(f) == IsFrameworkSupported(g)
    ensures GetFrameworkInfo(Lower(f)) == GetFrameworkInfo(f)
    ensures IsFrameworkSupported(Lower(f)) == IsFrameworkSupported(f)
  {
    LowerIdempotent(f);
  }
}
