/**
 * Model-provider selection: which chat backend the environment asks for,
 * which backends are installed, and whether a provider's configuration is
 * complete. The process environment is a map from variable names to values;
 * the optional backend packages are a set of installed packages.
 */
module LlmProvider {
  import opened Wrappers

  type Env = map<string, string>

  /** The optional backend packages, each imported only if it is installed. */
  datatype Package = LangchainAnthropic | LangchainGroq | LangchainGoogleGenai | LangchainCommunity

  /** A constructed backend client: the model id and its credential or endpoint. */
  datatype ChatBackend =
    | ChatOpenAI(model: string, apiKey: string)
    | ChatAnthropic(model: string, apiKey: string)
    | ChatGroq(model: string, apiKey: string)
    | ChatGemini(model: string, apiKey: string)
    | ChatOllama(model: string, baseUrl: string)

  const DefaultOllamaUrl: string := "http://localhost:11434"

  /** The providers in the order `get_available_providers` lists them. */
  const KnownProviders: seq<string> := ["openai", "anthropic", "groq", "gemini", "ollama"]

  /** `os.getenv(name, default)`: a variable set to the empty string is returned as such. */
  function GetEnv(env: Env, name: string, default: string): string
  {
    if name in env then env[name] else default
  }

  /** A credential counts as present only when it is set and non-empty (`if not api_key`). */
  predicate KeySet(env: Env, name: string)
  {
    name in env && env[name] != ""
  }

  function LowerChar(c: char): char
  {
    if 'A' <= c <= 'Z' then (c as int + 32) as char else c
  }

  /** `str.lower()` on the ASCII range; every other character is kept. */
  function Lower(s: string): (r: string)
    ensures |r| == |s|
  {
    if s == [] then [] else [LowerChar(s[0])] + Lower(s[1..])
  }

  /** Each character is lower-cased in place, so no upper-case ASCII letter remains. */
  lemma {:induction false} LowerChars(s: string)
    ensures forall i :: 0 <= i < |s| ==> Lower(s)[i] == LowerChar(s[i])
    ensures forall i :: 0 <= i < |s| ==> !('A' <= Lower(s)[i] <= 'Z')
  {
    if s != [] {
      LowerChars(s[1..]);
      assert forall i :: 1 <= i < |s| ==> Lower(s)[i] == Lower(s[1..])[i - 1];
    }
  }

  /** The provider named by `LLM_PROVIDER`, lower-cased, "openai" when unset. */
  function ProviderName(env: Env): string
  {
    Lower(GetEnv(env, "LLM_PROVIDER", "openai"))
  }

  predicate IsKnownProvider(name: string)
  {
    name in KnownProviders
  }

  /** A name outside the known five is resolved as "openai". */
  function EffectiveProvider(name: string): (p: string)
    ensures IsKnownProvider(p)
    ensures IsKnownProvider(name) ==> p == name
    ensures !IsKnownProvider(name) ==> p == "openai"
  {
    if IsKnownProvider(name) then name else "openai"
  }

  /** The optional package a provider's client comes from; "openai" is always importable. */
  function PackageOf(provider: string): Option<Package>
  {
    match provider
    case "anthropic" => Some(LangchainAnthropic)
    case "groq" => Some(LangchainGroq)
    case "gemini" => Some(LangchainGoogleGenai)
    case "ollama" => Some(LangchainCommunity)
    case _ => None
  }

  /** The environment variable holding a provider's API key; Ollama needs none. */
  function KeyOf(provider: string): Option<string>
  {
    match provider
    case "openai" => Some("OPENAI_API_KEY")
    case "anthropic" => Some("ANTHROPIC_API_KEY")
    case "groq" => Some("GROQ_API_KEY")
    case "gemini" => Some("GOOGLE_API_KEY")
    case _ => None
  }

  /** One precondition a provider needs before a client is built. */
  datatype Requirement = Installed(package: Package) | ApiKey(variable: string)

  /** What a provider needs, in the order both checks test it: the package first, then the key. */
  function Requirements(provider: string): seq<Requirement>
  {
    (if PackageOf(provider).Some? then [Installed(PackageOf(provider).value)] else [])
    + (if KeyOf(provider).Some? then [ApiKey(KeyOf(provider).value)] else [])
  }

  predicate Met(env: Env, installed: set<Package>, r: Requirement)
  {
    match r
    case Installed(p) => p in installed
    case ApiKey(v) => KeySet(env, v)
  }

  predicate AllMet(env: Env, installed: set<Package>, rs: seq<Requirement>)
  {
    rs == [] || (Met(env, installed, rs[0]) && AllMet(env, installed, rs[1..]))
  }

  /** A provider's requirements are met when its package is installed and its key is set. */
  lemma RequirementsMet(env: Env, installed: set<Package>, provider: string)
    ensures AllMet(env, installed, Requirements(provider)) <==>
      (PackageOf(provider).None? || PackageOf(provider).value in installed) &&
      (KeyOf(provider).None? || KeySet(env, KeyOf(provider).value))
  {
    var pkgs := if PackageOf(provider).Some? then [Installed(PackageOf(provider).value)] else [];
    var keys := if KeyOf(provider).Some? then [ApiKey(KeyOf(provider).value)] else [];
    AllMetConcat(env, installed, pkgs, keys);
    if PackageOf(provider).Some? {
      assert pkgs[1..] == [];
    }
    if KeyOf(provider).Some? {
      assert keys[1..] == [];
    }
  }

  lemma {:induction false} AllMetConcat(env: Env, installed: set<Package>, a: seq<Requirement>, b: seq<Requirement>)
    ensures AllMet(env, installed, a + b) <==> AllMet(env, installed, a) && AllMet(env, installed, b)
  {
    if a != [] {
      assert (a + b)[1..] == a[1..] + b;
      AllMetConcat(env, installed, a[1..], b);
    } else {
      assert a + b == b;
    }
  }

  /** How a missing requirement is reported. */
  function Label(r: Requirement): string
  {
    match r
    case Installed(LangchainAnthropic) => "langchain_anthropic package"
    case Installed(LangchainGroq) => "langchain_groq package"
    case Installed(LangchainGoogleGenai) => "langchain_google_genai package"
    case Installed(LangchainCommunity) => "langchain_community package"
    case ApiKey(v) => v
  }

  /** The labels of the unmet requirements, in requirement order. */
  function UnmetLabels(env: Env, installed: set<Package>, rs: seq<Requirement>): (labels: seq<string>)
    ensures |labels| <= |rs|
  {
    if rs == [] then []
    else (if Met(env, installed, rs[0]) then [] else [Label(rs[0])]) + UnmetLabels(env, installed, rs[1..])
  }

  /** The report lists the missing package, then the missing key. */
  lemma UnmetLabelsOf(env: Env, installed: set<Package>, provider: string)
    ensures UnmetLabels(env, installed, Requirements(provider)) ==
      (if PackageOf(provider).Some? && PackageOf(provider).value !in installed
       then [Label(Installed(PackageOf(provider).value))] else [])
      + (if KeyOf(provider).Some? && !KeySet(env, KeyOf(provider).value) then [KeyOf(provider).value] else [])
  {
    var rs := Requirements(provider);
    var keys := if KeyOf(provider).Some? then [ApiKey(KeyOf(provider).value)] else [];
    if PackageOf(provider).Some? {
      assert rs[1..] == keys;
    }
    if KeyOf(provider).Some? {
      assert keys[1..] == [];
    }
  }

  /** Nothing is reported missing exactly when every requirement is met. */
  lemma {:induction false} UnmetLabelsEmpty(env: Env, installed: set<Package>, rs: seq<Requirement>)
    ensures UnmetLabels(env, installed, rs) == [] <==> AllMet(env, installed, rs)
  {
    if rs != [] {
      UnmetLabelsEmpty(env, installed, rs[1..]);
    }
  }

  /** The OpenAI client, or none when `OPENAI_API_KEY` is missing or empty. */
  function OpenAiClient(env: Env): Option<ChatBackend>
  {
    if !KeySet(env, "OPENAI_API_KEY") then None
    else Some(ChatOpenAI("gpt-4o-mini", env["OPENAI_API_KEY"]))
  }

  /**
   * `get_llm`: the if/elif chain over the provider name. A client is built
   * exactly when every requirement of the effective provider is met.
   */
  function GetLlm(env: Env, installed: set<Package>): (llm: Option<ChatBackend>)
    ensures llm.Some? <==> AllMet(env, installed, Requirements(EffectiveProvider(ProviderName(env))))
  {
    var provider := ProviderName(env);
    RequirementsMet(env, installed, EffectiveProvider(provider));
    if provider == "openai" then OpenAiClient(env)
    else if provider == "anthropic" then
      if LangchainAnthropic !in installed then None
      else if !KeySet(env, "ANTHROPIC_API_KEY") then None
      else Some(ChatAnthropic("claude-3-5-sonnet-20240620", env["ANTHROPIC_API_KEY"]))
    else if provider == "groq" then
      if LangchainGroq !in installed then None
      else if !KeySet(env, "GROQ_API_KEY") then None
      else Some(ChatGroq("llama3-8b-8192", env["GROQ_API_KEY"]))
    else if provider == "gemini" then
      if LangchainGoogleGenai !in installed then None
      else if !KeySet(env, "GOOGLE_API_KEY") then None
      else Some(ChatGemini("gemini-2.0-flash-exp", env["GOOGLE_API_KEY"]))
    else if provider == "ollama" then
      if LangchainCommunity !in installed then None
      else Some(ChatOllama("llama3.2", GetEnv(env, "OLLAMA_BASE_URL", DefaultOllamaUrl)))
    else OpenAiClient(env)
  }

  function ProviderOf(b: ChatBackend): string
  {
    match b
    case ChatOpenAI(_, _) => "openai"
    case ChatAnthropic(_, _) => "anthropic"
    case ChatGroq(_, _) => "groq"
    case ChatGemini(_, _) => "gemini"
    case ChatOllama(_, _) => "ollama"
  }

  function KeyVariable(b: ChatBackend): string
    requires !b.ChatOllama?
  {
    match b
    case ChatOpenAI(_, _) => "OPENAI_API_KEY"
    case ChatAnthropic(_, _) => "ANTHROPIC_API_KEY"
    case ChatGroq(_, _) => "GROQ_API_KEY"
    case ChatGemini(_, _) => "GOOGLE_API_KEY"
  }

  /** A client built by `get_llm` belongs to the effective provider and holds the credential from the environment. */
  lemma GetLlmClient(env: Env, installed: set<Package>)
    requires GetLlm(env, installed).Some?
    ensures ProviderOf(GetLlm(env, installed).value) == EffectiveProvider(ProviderName(env))
    ensures var b := GetLlm(env, installed).value;
      !b.ChatOllama? ==> KeyOf(ProviderOf(b)) == Some(KeyVariable(b)) && b.apiKey == env[KeyVariable(b)]
  {
    var provider := ProviderName(env);
    if provider == "openai" {
    } else if provider == "anthropic" {
    } else if provider == "groq" {
    } else if provider == "gemini" {
    } else if provider == "ollama" {
    } else {
      assert !IsKnownProvider(provider);
    }
  }

  /** A provider that needs a key yields no client while that key is missing or empty. */
  lemma MissingKeyNoClient(env: Env, installed: set<Package>)
    requires KeyOf(EffectiveProvider(ProviderName(env))).Some?
    requires !KeySet(env, KeyOf(EffectiveProvider(ProviderName(env))).value)
    ensures GetLlm(env, installed).None?
  {
    var rs := Requirements(EffectiveProvider(ProviderName(env)));
    assert ApiKey(KeyOf(EffectiveProvider(ProviderName(env))).value) in rs;
  }

  /** A provider whose backend package is not installed yields no client, whatever its key. */
  lemma MissingPackageNoClient(env: Env, installed: set<Package>)
    requires PackageOf(EffectiveProvider(ProviderName(env))).Some?
    requires PackageOf(EffectiveProvider(ProviderName(env))).value !in installed
    ensures GetLlm(env, installed).None?
  {
    var rs := Requirements(EffectiveProvider(ProviderName(env)));
    assert rs[0] == Installed(PackageOf(EffectiveProvider(ProviderName(env))).value);
  }

  /** Ollama needs no key; its endpoint is `OLLAMA_BASE_URL` or the local default. */
  lemma OllamaClient(env: Env, installed: set<Package>)
    requires ProviderName(env) == "ollama" && LangchainCommunity in installed
    ensures GetLlm(env, installed) == Some(ChatOllama("llama3.2",
      if "OLLAMA_BASE_URL" in env then env["OLLAMA_BASE_URL"] else "http://localhost:11434"))
  {
  }

  /** An unknown provider name behaves exactly like "openai"; so does an unset `LLM_PROVIDER`. */
  lemma UnknownProviderIsOpenAi(env: Env, installed: set<Package>)
    requires !IsKnownProvider(ProviderName(env)) || "LLM_PROVIDER" !in env
    ensures GetLlm(env, installed) == GetLlm(env["LLM_PROVIDER" := "openai"], installed)
    ensures GetLlm(env, installed) == OpenAiClient(env)
  {
    assert Lower("openai") == "openai";
  }

  /** Rank of a known provider in the listing order. */
  function Rank(name: string): (k: nat)
    requires IsKnownProvider(name)
    ensures k < |KnownProviders| && KnownProviders[k] == name
  {
    if name == "openai" then 0 else if name == "anthropic" then 1 else if name == "groq" then 2
    else if name == "gemini" then 3 else 4
  }

  /** Whether a provider can be offered: it needs no optional package, or its package is installed. */
  predicate Offered(installed: set<Package>, provider: string)
  {
    PackageOf(provider).None? || PackageOf(provider).value in installed
  }

  /** The providers of a list that can be offered, in list order. */
  function OfferedOf(installed: set<Package>, names: seq<string>): seq<string>
  {
    if names == [] then []
    else
      var last := names[|names| - 1];
      OfferedOf(installed, names[..|names| - 1]) + (if Offered(installed, last) then [last] else [])
  }

  /**
   * `get_available_providers`: "openai" always, then each installed backend
   * in the fixed order anthropic, groq, gemini, ollama; that is, the known
   * providers that can be offered, in their listing order.
   */
  method GetAvailableProviders(installed: set<Package>) returns (providers: seq<string>)
    ensures |providers| >= 1 && providers[0] == "openai"
    ensures providers == OfferedOf(installed, KnownProviders)
  {
    providers := ["openai"];
    assert providers == OfferedOf(installed, KnownProviders[..1]) by {
      assert KnownProviders[..1][..0] == [];
    }
    if LangchainAnthropic in installed {
      providers := providers + ["anthropic"];
    }
    assert providers == OfferedOf(installed, KnownProviders[..2]) by {
      assert KnownProviders[..2][..1] == KnownProviders[..1];
    }
    if LangchainGroq in installed {
      providers := providers + ["groq"];
    }
    assert providers == OfferedOf(installed, KnownProviders[..3]) by {
      assert KnownProviders[..3][..2] == KnownProviders[..2];
    }
    if LangchainGoogleGenai in installed {
      providers := providers + ["gemini"];
    }
    assert providers == OfferedOf(installed, KnownProviders[..4]) by {
      assert KnownProviders[..4][..3] == KnownProviders[..3];
    }
    if LangchainCommunity in installed {
      providers := providers + ["ollama"];
    }
    assert providers == OfferedOf(installed, KnownProviders[..5]) by {
      assert KnownProviders[..5][..4] == KnownProviders[..4];
    }
    assert KnownProviders[..5] == KnownProviders;
  }

  /** A provider is offered from a list iff it is in the list and can be offered. */
  lemma {:induction false} OfferedOfMembers(installed: set<Package>, names: seq<string>, p: string)
    ensures p in OfferedOf(installed, names) <==> p in names && Offered(installed, p)
  {
    if names != [] {
      var init := names[..|names| - 1];
      OfferedOfMembers(installed, init, p);
      assert names == init + [names[|names| - 1]];
    }
  }

  /** Known providers listed in strictly increasing listing order, hence without duplicates. */
  predicate RankSorted(names: seq<string>)
  {
    && (forall i :: 0 <= i < |names| ==> IsKnownProvider(names[i]))
    && (forall i, j :: 0 <= i < j < |names| ==> Rank(names[i]) < Rank(names[j]))
  }

  /** Keeping only the offered providers keeps the listing order. */
  lemma {:induction false} OfferedOfSorted(installed: set<Package>, names: seq<string>)
    requires RankSorted(names)
    ensures RankSorted(OfferedOf(installed, names))
  {
    if names != [] {
      var init := names[..|names| - 1];
      var last := names[|names| - 1];
      assert RankSorted(init);
      OfferedOfSorted(installed, init);
      var before := OfferedOf(installed, init);
      forall i | 0 <= i < |before|
        ensures IsKnownProvider(before[i]) && Rank(before[i]) < Rank(last)
      {
        OfferedOfMembers(installed, init, before[i]);
        var k :| 0 <= k < |init| && init[k] == before[i];
      }
    }
  }

  /**
   * The listing holds known providers only, each exactly when it can be
   * offered, in strictly increasing listing order (so without duplicates).
   */
  lemma AvailableProviders(installed: set<Package>)
    ensures var providers := OfferedOf(installed, KnownProviders);
      && RankSorted(providers)
      && (forall p :: p in providers <==> IsKnownProvider(p) && Offered(installed, p))
  {
    assert Rank("openai") == 0 && Rank("anthropic") == 1 && Rank("groq") == 2;
    assert Rank("gemini") == 3 && Rank("ollama") == 4;
    assert RankSorted(KnownProviders);
    OfferedOfSorted(installed, KnownProviders);
    forall p
      ensures p in OfferedOf(installed, KnownProviders) <==> IsKnownProvider(p) && Offered(installed, p)
    {
      OfferedOfMembers(installed, KnownProviders, p);
    }
  }

  /** The report of `validate_provider_config`. */
  datatype ProviderStatus = ProviderStatus(provider: string, configured: bool, missing: seq<string>)

  /**
   * `validate_provider_config`: the lower-cased name is echoed, the missing
   * requirements are listed in check order, and the provider counts as
   * configured exactly when it is known and nothing is missing. For the five
   * known names this agrees with whether `get_llm` would build a client.
   */
  method ValidateProviderConfig(env: Env, installed: set<Package>, name: string) returns (status: ProviderStatus)
    ensures status.provider == Lower(name)
    ensures status.missing == UnmetLabels(env, installed, Requirements(Lower(name)))
    ensures status.configured <==> IsKnownProvider(Lower(name)) && status.missing == []
    ensures !IsKnownProvider(Lower(name)) ==> !status.configured && status.missing == []
  {
    var provider := Lower(name);
    UnmetLabelsOf(env, installed, provider);
    var missing: seq<string> := [];
    var configured := false;
    if provider == "openai" {
      if !KeySet(env, "OPENAI_API_KEY") {
        missing := missing + ["OPENAI_API_KEY"];
      } else {
        configured := true;
      }
    } else if provider == "anthropic" {
      if LangchainAnthropic !in installed {
        missing := missing + ["langchain_anthropic package"];
      }
      if !KeySet(env, "ANTHROPIC_API_KEY") {
        missing := missing + ["ANTHROPIC_API_KEY"];
      }
      if missing == [] {
        configured := true;
      }
    } else if provider == "groq" {
      if LangchainGroq !in installed {
        missing := missing + ["langchain_groq package"];
      }
      if !KeySet(env, "GROQ_API_KEY") {
        missing := missing + ["GROQ_API_KEY"];
      }
      if missing == [] {
        configured := true;
      }
    } else if provider == "gemini" {
      if LangchainGoogleGenai !in installed {
        missing := missing + ["langchain_google_genai package"];
      }
      if !KeySet(env, "GOOGLE_API_KEY") {
        missing := missing + ["GOOGLE_API_KEY"];
      }
      if missing == [] {
        configured := true;
      }
    } else if provider == "ollama" {
      if LangchainCommunity !in installed {
        missing := missing + ["langchain_community package"];
      }
      if missing == [] {
        configured := true;
      }
    }
    status := ProviderStatus(provider, configured, missing);
  }

  /**
   * For the five known names, `validate_provider_config` reports a provider
   * configured exactly when `get_llm`, with `LLM_PROVIDER` set to that name,
   * builds a client.
   */
  lemma ValidateAgreesWithGetLlm(env: Env, installed: set<Package>, name: string)
    requires IsKnownProvider(Lower(name))
    ensures UnmetLabels(env, installed, Requirements(Lower(name))) == []
      <==> GetLlm(env["LLM_PROVIDER" := name], installed).Some?
  {
    var env' := env["LLM_PROVIDER" := name];
    assert ProviderName(env') == Lower(name);
    UnmetLabelsEmpty(env, installed, Requirements(Lower(name)));
    // The requirements of a known provider never mention `LLM_PROVIDER`.
    RequirementsMet(env, installed, Lower(name));
    RequirementsMet(env', installed, Lower(name));
  }
}
