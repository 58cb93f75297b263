/**
 * The two-step website creation wizard: pick a template, then fill in the
 * name and an optional domain. Creating builds a draft website whose domain
 * is the typed one, or the slug of the name under `.mystore.id`.
 */
module CreateWebsite {
  import opened Seqs
  import opened Text
  import opened Domain

  datatype Step = TemplateStep | DetailsStep

  const DomainSuffix := ".mystore.id"

  const DefaultClientId := "client-1"

  /** The stored domain: the typed domain verbatim, or the slug of the name with the platform suffix. */
  function DerivedDomain(siteName: string, domain: string): string
  {
    if domain != "" then domain else Slug(siteName) + DomainSuffix
  }

  /**
   * A typed domain is kept exactly as typed, with no suffix added; an empty
   * one becomes a whitespace-free slug of the name, lower-cased, keeping
   * every other character of the name in order, followed by the suffix.
   */
  lemma DerivedDomainSpec(siteName: string, domain: string)
    ensures domain != "" ==> DerivedDomain(siteName, domain) == domain
    ensures domain == "" ==>
      var d := DerivedDomain(siteName, domain);
      var slug := d[..|d| - |DomainSuffix|];
      |d| >= |DomainSuffix| && d[|d| - |DomainSuffix|..] == DomainSuffix &&
      slug == Slug(siteName) &&
      NoSpace(slug) &&
      IsSubsequence(Lower(NonSpace(siteName)), slug)
  {
    if domain == "" {
      var d := DerivedDomain(siteName, domain);
      assert d[..|d| - |DomainSuffix|] == Slug(siteName);
      SlugHasNoSpace(siteName);
      SlugKeepsLetters(siteName);
    }
  }

  /** Lower-casing keeps whitespace and non-whitespace apart. */
  lemma LowerKeepsClasses(s: string)
    ensures NoSpace(s) ==> NoSpace(Lower(s))
    ensures AllSpace(s) ==> AllSpace(Lower(s))
  {
    forall i | 0 <= i < |s| ensures IsSpace(Lower(s)[i]) <==> IsSpace(s[i]) {
      LowerCharKeepsSpace(s[i]);
    }
  }

  /** Two words around a whitespace run of any length are joined by a single dash. */
  lemma SlugJoinsWords(a: string, run: string, b: string)
    requires NoSpace(a) && NoSpace(b)
    requires run != [] && AllSpace(run)
    ensures Slug(a + run + b) == Lower(a) + "-" + Lower(b)
  {
    LowerAppend(a + run, b);
    LowerAppend(a, run);
    LowerKeepsClasses(a);
    LowerKeepsClasses(run);
    LowerKeepsClasses(b);
    var la, lr, lb := Lower(a), Lower(run), Lower(b);
    DashRunsAppend(la + lr, lb);
    DashRunsAppend(la, lr);
    DashRunsOfWord(la, false);
    DashRunsOfWord(lb, false);
    DashRunsOfRun(lr);
  }

  /** Leading and trailing whitespace runs are not trimmed: each becomes a dash. */
  lemma SlugKeepsPadding(lead: string, w: string, trail: string)
    requires lead != [] && AllSpace(lead) && trail != [] && AllSpace(trail)
    requires w != [] && NoSpace(w)
    ensures Slug(lead + w + trail) == "-" + Lower(w) + "-"
  {
    LowerAppend(lead + w, trail);
    LowerAppend(lead, w);
    LowerKeepsClasses(lead);
    LowerKeepsClasses(w);
    LowerKeepsClasses(trail);
    var ll, lw, lt := Lower(lead), Lower(w), Lower(trail);
    DashRunsAppend(ll + lw, lt);
    DashRunsAppend(ll, lw);
    DashRunsOfWord(lw, false);
    DashRunsOfRun(ll);
    DashRunsOfRun(lt);
  }

  /** The domain line under the input: the typed domain with the suffix, or the slug, or a placeholder. */
  function DomainPreview(siteName: string, domain: string): string
  {
    if domain != "" then domain + DomainSuffix
    else (if Slug(siteName) != "" then Slug(siteName) else "nama-website") + DomainSuffix
  }

  /**
   * The preview agrees with the stored domain when no domain is typed and
   * the name is not empty; for a typed domain it shows the suffix that the
   * stored domain does not get.
   */
  lemma PreviewVersusStored(siteName: string, domain: string)
    ensures domain == "" && siteName != "" ==> DomainPreview(siteName, domain) == DerivedDomain(siteName, domain)
    ensures domain != "" ==> DomainPreview(siteName, domain) == DerivedDomain(siteName, domain) + DomainSuffix
  {
    if domain == "" && siteName != "" {
      DashRunsNonEmpty(Lower(siteName));
    }
  }

  /** Dashing the runs of a non-empty text leaves a non-empty text. */
  lemma DashRunsNonEmpty(s: string)
    requires s != []
    ensures DashRuns(s) != []
  {
  }

  /** The website a create hands on: a draft of client `client-1` with a fresh id `web-<now>`. */
  function NewWebsite(templateId: string, siteName: string, domain: string, now: int): Website
  {
    Website("web-" + IntToString(now), DefaultClientId, templateId, DerivedDomain(siteName, domain), siteName, Draft, None)
  }

  /** The wizard's state. */
  class Wizard {
    var step: Step
    var selectedTemplate: string
    var siteName: string
    var domain: string

    /** The wizard opens on the template step with nothing chosen or typed. */
    constructor()
      ensures step == TemplateStep && selectedTemplate == "" && siteName == "" && domain == ""
    {
      step := TemplateStep;
      selectedTemplate := "";
      siteName := "";
      domain := "";
    }

    /** Picking a template records it and moves on to the details. */
    method SelectTemplate(templateId: string)
      modifies this
      ensures step == DetailsStep && selectedTemplate == templateId
      ensures siteName == old(siteName) && domain == old(domain)
    {
      selectedTemplate := templateId;
      step := DetailsStep;
    }

    /** Both "change template" and "back" on the details step: return to the gallery, forgetting nothing. */
    method BackToTemplates()
      modifies this
      ensures step == TemplateStep
      ensures selectedTemplate == old(selectedTemplate) && siteName == old(siteName) && domain == old(domain)
    {
      step := TemplateStep;
    }

    method SetSiteName(name: string)
      modifies this
      ensures siteName == name
      ensures step == old(step) && selectedTemplate == old(selectedTemplate) && domain == old(domain)
    {
      siteName := name;
    }

    method SetDomain(d: string)
      modifies this
      ensures domain == d
      ensures step == old(step) && selectedTemplate == old(selectedTemplate) && siteName == old(siteName)
    {
      domain := d;
    }

    /**
     * The create button, shown on the details step and enabled once a name
     * is typed: a draft website of `client-1` on the selected template,
     * with the typed name and the derived domain, not yet published.
     */
    method Create(now: int) returns (w: Website)
      requires step == DetailsStep && siteName != ""
      ensures w == NewWebsite(selectedTemplate, siteName, domain, now)
      ensures w.status == Draft && w.clientId == DefaultClientId && w.publishedAt == None
      ensures w.templateId == selectedTemplate && w.siteName == siteName
      ensures domain != "" ==> w.domain == domain
      ensures domain == "" ==> w.domain == Slug(siteName) + DomainSuffix
      ensures "web-" <= w.websiteId
    {
      w := Website("web-" + IntToString(now), DefaultClientId, selectedTemplate, DerivedDomain(siteName, domain), siteName, Draft, None);
    }
  }
}
