/**
 * The search-and-tabs logic of the providers overview: catalog entries, the
 * search filter, the status badge and the two pieces of view state
 * (`searchTerm`, `activeTab`).
 */
module Providers {
  import opened Text

  datatype Option<T> = None | Some(value: T)

  /**
   * One card of a catalog. LLM entries carry `models` and no `features`,
   * hosting entries carry `features` and no `models`; a list the record does
   * not have is `None`.
   */
  datatype Entry = Entry(
    name: string,
    url: string,
    models: Option<seq<string>>,
    features: Option<seq<string>>,
    status: string)

  // ---------------------------------------------------------------------------
  // The search filter
  // ---------------------------------------------------------------------------

  /** `items.some(x => x.toLowerCase().includes(t))`, where `t` is already lowered. */
  predicate SomeIncludes(items: seq<string>, t: string) {
    exists k :: 0 <= k < |items| && Includes(Lower(items[k]), t)
  }

  /** `list && list.some(...)`: a missing list contributes nothing. */
  predicate ListMatches(list: Option<seq<string>>, t: string) {
    list.Some? && SomeIncludes(list.value, t)
  }

  /** The filter's callback: the lowered term occurs in the name, a model or a feature. */
  predicate Matches(e: Entry, term: string)
    ensures |term| == 0 ==> Matches(e, term)
  {
    var t := Lower(term);
    Includes(Lower(e.name), t) || ListMatches(e.models, t) || ListMatches(e.features, t)
  }

  /** `filterProviders(providers, term)`: `providers.filter(...)` with the callback above. */
  function Filter(providers: seq<Entry>, term: string): (r: seq<Entry>)
    ensures |r| <= |providers|
  {
    if providers == [] then []
    else (if Matches(providers[0], term) then [providers[0]] else []) + Filter(providers[1..], term)
  }

  /** An entry is in the result exactly when it is in the input and matches the term. */
  lemma {:induction false} FilterMembership(providers: seq<Entry>, term: string, e: Entry)
    ensures e in Filter(providers, term) <==> e in providers && Matches(e, term)
  {
    if providers != [] {
      FilterMembership(providers[1..], term, e);
      assert providers == [providers[0]] + providers[1..];
    }
  }

  /** `r` is `s` with some entries dropped and the rest kept in order. */
  ghost predicate IsSubsequence(r: seq<Entry>, s: seq<Entry>)
    decreases |s|
  {
    r == [] || (s != [] && ((r[0] == s[0] && IsSubsequence(r[1..], s[1..])) || IsSubsequence(r, s[1..])))
  }

  /** The filter only drops entries: what it keeps stays in input order. */
  lemma {:induction false} FilterIsSubsequence(providers: seq<Entry>, term: string)
    ensures IsSubsequence(Filter(providers, term), providers)
  {
    if providers != [] {
      var tail := Filter(providers[1..], term);
      FilterIsSubsequence(providers[1..], term);
      if Matches(providers[0], term) {
        var r := Filter(providers, term);
        assert r == [providers[0]] + tail;
        assert r[0] == providers[0] && r[1..] == tail;
      } else {
        assert Filter(providers, term) == tail;
      }
    }
  }

  /**
   * Every matching entry is kept as often as it occurs in the input, and no
   * other entry is kept; with `FilterIsSubsequence` this pins the result down.
   */
  lemma {:induction false} FilterCounts(providers: seq<Entry>, term: string, e: Entry)
    ensures multiset(Filter(providers, term))[e] == if Matches(e, term) then multiset(providers)[e] else 0
  {
    if providers != [] {
      var tail := Filter(providers[1..], term);
      FilterCounts(providers[1..], term, e);
      assert providers == [providers[0]] + providers[1..];
      assert multiset(providers) == multiset([providers[0]]) + multiset(providers[1..]);
      if Matches(providers[0], term) {
        assert Filter(providers, term) == [providers[0]] + tail;
        assert multiset(Filter(providers, term)) == multiset([providers[0]]) + multiset(tail);
      } else {
        assert Filter(providers, term) == tail;
      }
    }
  }

  /** An empty search term keeps every entry: the filter is the identity. */
  lemma {:induction false} FilterEmptyTerm(providers: seq<Entry>)
    ensures Filter(providers, "") == providers
  {
    if providers != [] {
      FilterEmptyTerm(providers[1..]);
    }
  }

  /** Two terms with the same lower-case form select the same entries. */
  lemma {:induction false} FilterCaseInsensitive(providers: seq<Entry>, t1: string, t2: string)
    requires Lower(t1) == Lower(t2)
    ensures Filter(providers, t1) == Filter(providers, t2)
  {
    if providers != [] {
      FilterCaseInsensitive(providers[1..], t1, t2);
    }
  }

  /** Searching for the lowered term is the same as searching for the term. */
  lemma FilterLoweredTerm(providers: seq<Entry>, term: string)
    ensures Filter(providers, Lower(term)) == Filter(providers, term)
  {
    LowerIdempotent(term);
    FilterCaseInsensitive(providers, Lower(term), term);
  }

  /** Filtering an already filtered list again with the same term changes nothing. */
  lemma {:induction false} FilterIdempotent(providers: seq<Entry>, term: string)
    ensures Filter(Filter(providers, term), term) == Filter(providers, term)
  {
    if providers != [] {
      var tail := Filter(providers[1..], term);
      FilterIdempotent(providers[1..], term);
      if Matches(providers[0], term) {
        assert Filter(providers, term) == [providers[0]] + tail;
        FilterCons(providers[0], tail, term);
      } else {
        assert Filter(providers, term) == tail;
      }
    }
  }

  /** A list the entry does not have never makes it match: missing behaves like empty. */
  lemma MissingListNeverMatches(e: Entry, term: string)
    ensures e.models.None? ==> (Matches(e, term) <==> Matches(e.(models := Some([])), term))
    ensures e.features.None? ==> (Matches(e, term) <==> Matches(e.(features := Some([])), term))
    ensures e.models.None? && e.features.None? ==>
      (Matches(e, term) <==> Includes(Lower(e.name), Lower(term)))
  {
  }

  /** Any piece of an entry's name, typed in any case, finds that entry. */
  lemma NameFragmentFindsEntry(providers: seq<Entry>, e: Entry, i: nat, j: nat, term: string)
    requires e in providers && i <= j <= |e.name|
    requires Lower(term) == Lower(e.name[i..j])
    ensures e in Filter(providers, term)
  {
    LowerSlice(e.name, i, j);
    assert OccursAt(Lower(e.name), Lower(e.name[i..j]), i);
    IncludesIff(Lower(e.name), Lower(e.name[i..j]));
    FilterMembership(providers, e.name[i..j], e);
    FilterCaseInsensitive(providers, term, e.name[i..j]);
  }

  /** Any piece of one of an entry's model names, typed in any case, finds that entry. */
  lemma ModelFragmentFindsEntry(providers: seq<Entry>, e: Entry, m: nat, i: nat, j: nat, term: string)
    requires e in providers && e.models.Some? && m < |e.models.value|
    requires i <= j <= |e.models.value[m]|
    requires Lower(term) == Lower(e.models.value[m][i..j])
    ensures e in Filter(providers, term)
  {
    var model := e.models.value[m];
    LowerSlice(model, i, j);
    assert OccursAt(Lower(model), Lower(model[i..j]), i);
    IncludesIff(Lower(model), Lower(model[i..j]));
    FilterMembership(providers, model[i..j], e);
    FilterCaseInsensitive(providers, term, model[i..j]);
  }

  /** Any piece of one of an entry's features, typed in any case, finds that entry. */
  lemma FeatureFragmentFindsEntry(providers: seq<Entry>, e: Entry, f: nat, i: nat, j: nat, term: string)
    requires e in providers && e.features.Some? && f < |e.features.value|
    requires i <= j <= |e.features.value[f]|
    requires Lower(term) == Lower(e.features.value[f][i..j])
    ensures e in Filter(providers, term)
  {
    var feature := e.features.value[f];
    LowerSlice(feature, i, j);
    assert OccursAt(Lower(feature), Lower(feature[i..j]), i);
    IncludesIff(Lower(feature), Lower(feature[i..j]));
    FilterMembership(providers, feature[i..j], e);
    FilterCaseInsensitive(providers, term, feature[i..j]);
  }

  // ---------------------------------------------------------------------------
  // Status badge
  // ---------------------------------------------------------------------------

  datatype Variant = Default | Secondary
  datatype Icon = CheckCircle | AlertCircle
  datatype Badge = Badge(variant: Variant, icon: Icon, caption: string)

  /** `StatusBadge`: only the exact status "stable" is shown as stable; anything else reads "Beta". */
  function StatusBadge(status: string): (b: Badge)
    ensures b.variant == Default <==> status == "stable"
    ensures b.caption == "Stable" <==> status == "stable"
    ensures b.caption == "Beta" <==> status != "stable"
    ensures b.icon == CheckCircle <==> b.variant == Default
  {
    if status == "stable" then Badge(Default, CheckCircle, "Stable")
    else Badge(Secondary, AlertCircle, "Beta")
  }

  // ---------------------------------------------------------------------------
  // The inline catalogs
  // ---------------------------------------------------------------------------

  function GoogleAIStudio(): Entry {
    Entry("Google AI Studio", "https://makersuite.google.com/",
          Some(["Gemini 2.0 Flash", "Gemini 2.0 Flash-Lite", "Gemini 1.5 Flash", "Gemini 1.5 Flash-8B"]),
          None, "stable")
  }

  function Scaleway(): Entry {
    Entry("Scaleway Generative APIs", "https://console.scaleway.com/",
          Some(["DeepSeek R1", "Llama 3.1/3.3 70B", "Mistral Nemo", "Pixtral 12B"]),
          None, "beta")
  }

  function OvhAIEndpoints(): Entry {
    Entry("OVH AI Endpoints", "https://www.ovhcloud.com/en/public-cloud/ai-endpoints/",
          Some(["Llama 3 8B/3.1 70B", "Mistral 7B/Nemo", "Mixtral 8x7B", "DeepSeek R1"]),
          None, "beta")
  }

  function CloudflareWorkersAI(): Entry {
    Entry("Cloudflare Workers AI", "https://developers.cloudflare.com/workers-ai/",
          Some(["Llama 3/3.1/3.2/3.3", "Mistral 7B", "Gemma 2B/7B", "OpenChat 3.5"]),
          None, "stable")
  }

  function MistralPlateforme(): Entry {
    Entry("Mistral (La Plateforme)", "https://console.mistral.ai/",
          Some(["Open and Proprietary Mistral models"]),
          None, "stable")
  }

  /** `llmProviders`: five entries, each with models and no features. */
  function LlmProviders(): (r: seq<Entry>)
    ensures |r| == 5
    ensures forall k :: 0 <= k < |r| ==> r[k].models.Some? && r[k].features.None?
  {
    [GoogleAIStudio(), Scaleway(), OvhAIEndpoints(), CloudflareWorkersAI(), MistralPlateforme()]
  }

  /** `hostingProviders`: four entries, each with features and no models. */
  function HostingProviders(): (r: seq<Entry>)
    ensures |r| == 4
    ensures forall k :: 0 <= k < |r| ==> r[k].models.None? && r[k].features.Some?
  {
    [ Entry("GitHub Codespaces", "https://github.com/features/codespaces", None,
            Some(["Free for public repositories", "Integrated with GitHub", "Full development environment"]),
            "stable"),
      Entry("Cloudflare Workers", "https://workers.cloudflare.com/", None,
            Some(["Global edge deployment", "Workers AI integration", "Unlimited scripts"]),
            "stable"),
      Entry("Google Cloud Run", "https://cloud.google.com/run", None,
            Some(["Serverless containers", "Auto-scaling", "Pay-per-use after free tier"]),
            "stable"),
      Entry("Vercel", "https://vercel.com/", None,
            Some(["Serverless functions", "Edge deployment", "Git integration"]),
            "stable") ]
  }

  /**
   * An entry without features does not match when its name lacks one letter
   * of the lowered term and each of its models lacks one letter of it.
   */
  lemma MissingLetterMeansNoMatch(e: Entry, term: string, nameLetter: char, modelLetter: char)
    requires e.features.None? && e.models.Some?
    requires nameLetter in Lower(term) && LacksLetter(e.name, nameLetter)
    requires modelLetter in Lower(term) && forall m :: m in e.models.value ==> LacksLetter(m, modelLetter)
    ensures !Matches(e, term)
  {
    NotIncludedInLowered(e.name, Lower(term), nameLetter);
    forall k | 0 <= k < |e.models.value|
      ensures !Includes(Lower(e.models.value[k]), Lower(term))
    {
      assert e.models.value[k] in e.models.value;
      NotIncludedInLowered(e.models.value[k], Lower(term), modelLetter);
    }
  }

  lemma GoogleNameLacksK()
    ensures LacksLetter("Google AI Studio", 'k')
  {
  }

  lemma GoogleModelsLackK()
    ensures forall m :: m in ["Gemini 2.0 Flash", "Gemini 2.0 Flash-Lite", "Gemini 1.5 Flash", "Gemini 1.5 Flash-8B"] ==>
      LacksLetter(m, 'k')
  {
  }

  /** Google AI Studio: no 'k' in its name or models. */
  lemma GoogleMissesDeepseek(term: string)
    requires Lower(term) == "deepseek"
    ensures !Matches(GoogleAIStudio(), term)
  {
    GoogleNameLacksK();
    GoogleModelsLackK();
    MissingLetterMeansNoMatch(GoogleAIStudio(), term, 'k', 'k');
  }

  lemma CloudflareNameLacksP()
    ensures LacksLetter("Cloudflare Workers AI", 'p')
  {
  }

  lemma CloudflareModelsLackD()
    ensures forall m :: m in ["Llama 3/3.1/3.2/3.3", "Mistral 7B", "Gemma 2B/7B", "OpenChat 3.5"] ==>
      LacksLetter(m, 'd')
  {
  }

  /** Cloudflare Workers AI: no 'p' in its name, no 'd' in its models. */
  lemma CloudflareMissesDeepseek(term: string)
    requires Lower(term) == "deepseek"
    ensures !Matches(CloudflareWorkersAI(), term)
  {
    CloudflareNameLacksP();
    CloudflareModelsLackD();
    MissingLetterMeansNoMatch(CloudflareWorkersAI(), term, 'p', 'd');
  }

  lemma MistralNameLacksK()
    ensures LacksLetter("Mistral (La Plateforme)", 'k')
  {
  }

  lemma MistralModelsLackK()
    ensures forall m :: m in ["Open and Proprietary Mistral models"] ==> LacksLetter(m, 'k')
  {
  }

  /** Mistral (La Plateforme): no 'k' in its name or models. */
  lemma MistralMissesDeepseek(term: string)
    requires Lower(term) == "deepseek"
    ensures !Matches(MistralPlateforme(), term)
  {
    MistralNameLacksK();
    MistralModelsLackK();
    MissingLetterMeansNoMatch(MistralPlateforme(), term, 'k', 'k');
  }

  /** Both Scaleway and OVH list the model "DeepSeek R1". */
  lemma DeepseekModelsMatch(term: string)
    requires Lower(term) == "deepseek"
    ensures Matches(Scaleway(), term) && Matches(OvhAIEndpoints(), term)
  {
    assert StartsWith(Lower("DeepSeek R1"), "deepseek");
    assert Includes(Lower(Scaleway().models.value[0]), Lower(term));
    assert Includes(Lower(OvhAIEndpoints().models.value[3]), Lower(term));
  }

  /**
   * Searching the LLM tab for "deepseek", in any case, keeps Scaleway and
   * OVH, in that order.
   */
  lemma DeepseekSearch(term: string)
    requires Lower(term) == "deepseek"
    ensures Filter(LlmProviders(), term) == [Scaleway(), OvhAIEndpoints()]
  {
    GoogleMissesDeepseek(term);
    CloudflareMissesDeepseek(term);
    MistralMissesDeepseek(term);
    DeepseekModelsMatch(term);
    FilterOfFive(GoogleAIStudio(), Scaleway(), OvhAIEndpoints(), CloudflareWorkersAI(), MistralPlateforme(), term);
  }

  /** Filtering a five-entry catalog, spelled out entry by entry. */
  lemma FilterOfFive(a: Entry, b: Entry, c: Entry, d: Entry, e: Entry, term: string)
    ensures Filter([a, b, c, d, e], term) ==
      (if Matches(a, term) then [a] else []) + ((if Matches(b, term) then [b] else []) +
      ((if Matches(c, term) then [c] else []) + ((if Matches(d, term) then [d] else []) +
      (if Matches(e, term) then [e] else []))))
  {
    assert [e] + [] == [e] && [d] + [e] == [d, e] && [c] + [d, e] == [c, d, e];
    assert [b] + [c, d, e] == [b, c, d, e] && [a] + [b, c, d, e] == [a, b, c, d, e];
    FilterCons(e, [], term);
    FilterCons(d, [e], term);
    FilterCons(c, [d, e], term);
    FilterCons(b, [c, d, e], term);
    FilterCons(a, [b, c, d, e], term);
  }

  /** Filtering `[e] + rest` decides `e` and filters the rest. */
  lemma FilterCons(e: Entry, rest: seq<Entry>, term: string)
    ensures Filter([e] + rest, term) == (if Matches(e, term) then [e] else []) + Filter(rest, term)
  {
    assert ([e] + rest)[1..] == rest;
  }

  // ---------------------------------------------------------------------------
  // View state
  // ---------------------------------------------------------------------------

  /** The cards a tab shows for a search term; a tab value with no panel shows none. */
  function Shown(tab: string, term: string): (r: seq<Entry>)
    ensures tab != "llm" && tab != "hosting" ==> r == []
  {
    if tab == "llm" then Filter(LlmProviders(), term)
    else if tab == "hosting" then Filter(HostingProviders(), term)
    else []
  }

  /**
   * A card is shown exactly when the tab is one of the two panels, the entry
   * belongs to that panel's catalog and it matches the term.
   */
  lemma ShownMembership(tab: string, term: string, e: Entry)
    ensures e in Shown(tab, term) <==>
      ((tab == "llm" && e in LlmProviders()) || (tab == "hosting" && e in HostingProviders()))
      && Matches(e, term)
  {
    FilterMembership(LlmProviders(), term, e);
    FilterMembership(HostingProviders(), term, e);
  }

  /** On first render (tab "llm", empty term) the whole LLM catalog is shown. */
  lemma InitialViewShowsAllLlmProviders()
    ensures Shown("llm", "") == LlmProviders()
  {
    FilterEmptyTerm(LlmProviders());
  }

  /** `searchTerm` and `activeTab`, each changed only through its own setter. */
  class ViewState {
    var searchTerm: string
    var activeTab: string

    /** `useState('')`, `useState('llm')`. */
    constructor ()
      ensures searchTerm == "" && activeTab == "llm"
    {
      searchTerm := "";
      activeTab := "llm";
    }

    /** The cards currently on screen. */
    function Visible(): seq<Entry>
      reads this
    {
      Shown(activeTab, searchTerm)
    }

    /** `setSearchTerm(e.target.value)`: the tab stays where it is. */
    method SetSearchTerm(term: string)
      modifies this`searchTerm
      ensures searchTerm == term
      ensures activeTab == old(activeTab)
    {
      searchTerm := term;
    }

    /** `setActiveTab(value)`: the search term is kept and re-applied to the new tab. */
    method SetActiveTab(tab: string)
      modifies this`activeTab
      ensures activeTab == tab
      ensures searchTerm == old(searchTerm)
      ensures Visible() == Shown(tab, old(searchTerm))
    {
      activeTab := tab;
    }
  }
}
