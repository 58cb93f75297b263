/**
 * The settings screen of one website: the banner list, the publish button,
 * and the general tab whose name, domain and status are written back on
 * save. The website itself is owned by the app; the screen hands every
 * change upward as a whole new record.
 */
module Settings {
  import opened Seqs
  import opened Domain

  /** The banner images a settings screen starts with. */
  const DefaultBanners: seq<string> := [
    "https://images.unsplash.com/photo-1607082348824-0a96f2a4b9da?w=1200",
    "https://images.unsplash.com/photo-1607082349566-187342175e2f?w=1200",
    "https://images.unsplash.com/photo-1607083206968-13611e3d76db?w=1200"
  ]

  /** The fields of the general tab. */
  datatype GeneralSettings = GeneralSettings(siteName: string, domain: string, status: WebsiteStatus)

  /** The general tab as the screen fills it in when it opens. */
  function InitialGeneral(website: Website): GeneralSettings
  {
    GeneralSettings(website.siteName, website.domain, website.status)
  }

  /** The contact e-mail the screen proposes for a website. */
  function DefaultContactEmail(website: Website): string
  {
    "hello@" + website.domain
  }

  // ----- banners -----

  /** The banner list after the add prompt: a non-empty answer is appended, a cancelled or empty one ignored. */
  function BannersAdded(banners: seq<string>, answer: Option<string>): seq<string>
  {
    match answer
    case Some(url) => if url != "" then banners + [url] else banners
    case None => banners
  }

  lemma BannersAddedSpec(banners: seq<string>, answer: Option<string>)
    ensures answer.Some? && answer.value != "" ==>
      BannersAdded(banners, answer) == banners + [answer.value] &&
      BannersAdded(banners, answer)[..|banners|] == banners
    ensures answer.None? || answer.value == "" ==> BannersAdded(banners, answer) == banners
  {
    if answer.Some? && answer.value != "" {
      assert (banners + [answer.value])[..|banners|] == banners;
    }
  }

  /** The banners at every position other than `index` (the `filter` on the position). */
  function ExceptIndex(banners: seq<string>, index: int): seq<string>
  {
    if banners == [] then []
    else
      var last := |banners| - 1;
      ExceptIndex(banners[..last], index) + (if last == index then [] else [banners[last]])
  }

  /**
   * Removing an index inside the list cuts out exactly that banner and keeps
   * the rest in order; an index outside it changes nothing.
   */
  lemma {:induction false} ExceptIndexSpec(banners: seq<string>, index: int)
    ensures 0 <= index < |banners| ==> ExceptIndex(banners, index) == banners[..index] + banners[index + 1..]
    ensures !(0 <= index < |banners|) ==> ExceptIndex(banners, index) == banners
    decreases |banners|
  {
    if banners != [] {
      var last := |banners| - 1;
      var front := banners[..last];
      ExceptIndexSpec(front, index);
      if index == last {
        assert front == banners[..index] && banners[index + 1..] == [];
      } else if 0 <= index < last {
        assert front[..index] == banners[..index];
        assert front[index + 1..] + [banners[last]] == banners[index + 1..];
      } else {
        assert front + [banners[last]] == banners;
      }
    }
  }

  /** Removing shortens a list by one exactly when the index is inside it. */
  lemma ExceptIndexLength(banners: seq<string>, index: int)
    ensures |ExceptIndex(banners, index)| == if 0 <= index < |banners| then |banners| - 1 else |banners|
  {
    ExceptIndexSpec(banners, index);
  }

  // ----- publishing -----

  /**
   * The record the publish button hands upward, or `None` when nothing is
   * handed on: a published website is unpublished once the user confirms;
   * any other website is published at `now`.
   */
  function PublishOutcome(website: Website, confirmed: bool, now: string): Option<Website>
  {
    if website.status == Published then
      if confirmed then Some(website.(status := Unpublished)) else None
    else
      Some(website.(status := Published, publishedAt := Some(now)))
  }

  /**
   * Publishing sets the status and a new publication time; unpublishing
   * keeps the old publication time; a declined unpublish hands on nothing;
   * no other field ever changes.
   */
  lemma PublishOutcomeSpec(website: Website, confirmed: bool, now: string)
    ensures website.status != Published ==>
      PublishOutcome(website, confirmed, now) == Some(website.(status := Published, publishedAt := Some(now)))
    ensures website.status == Published && confirmed ==>
      var r := PublishOutcome(website, confirmed, now);
      r.Some? && r.value.status == Unpublished && r.value.publishedAt == website.publishedAt
    ensures website.status == Published && !confirmed ==> PublishOutcome(website, confirmed, now).None?
    ensures PublishOutcome(website, confirmed, now).Some? ==>
      var r := PublishOutcome(website, confirmed, now).value;
      r.websiteId == website.websiteId && r.clientId == website.clientId && r.templateId == website.templateId &&
      r.domain == website.domain && r.siteName == website.siteName && r.status != website.status
  {
  }

  // ----- the general tab -----

  /** The record saved from the general tab: name, domain and status from the tab, the rest kept. */
  function SavedGeneral(website: Website, general: GeneralSettings): Website
  {
    website.(siteName := general.siteName, domain := general.domain, status := general.status)
  }

  /** Saving writes name, domain and status and keeps id, client, template and publication time. */
  lemma SavedGeneralSpec(website: Website, general: GeneralSettings)
    ensures var r := SavedGeneral(website, general);
      r.siteName == general.siteName && r.domain == general.domain && r.status == general.status &&
      r.websiteId == website.websiteId && r.clientId == website.clientId &&
      r.templateId == website.templateId && r.publishedAt == website.publishedAt
  {
  }

  /**
   * The general tab has no status field, so its status is the one the
   * website had when the screen opened. Publishing a draft and then saving
   * the general tab, on the same screen, hands on a draft again, with the
   * publication time left set.
   */
  lemma SaveAfterPublishReverts(website: Website, now: string)
    requires website.status == Draft
    ensures var published := PublishOutcome(website, false, now).value;
      published.status == Published &&
      SavedGeneral(published, InitialGeneral(website)).status == Draft &&
      SavedGeneral(published, InitialGeneral(website)).publishedAt == Some(now)
  {
  }

  /** A save of the general tab that leaves the publication status to the publish button. */
  function SavedGeneralKeepingStatus(website: Website, general: GeneralSettings): Website
  {
    website.(siteName := general.siteName, domain := general.domain)
  }

  /**
   * Such a save never changes the status or the publication time, so a
   * publish followed by a save stays published.
   */
  lemma SavedGeneralKeepingStatusSpec(website: Website, general: GeneralSettings, confirmed: bool, now: string)
    ensures var r := SavedGeneralKeepingStatus(website, general);
      r.siteName == general.siteName && r.domain == general.domain &&
      r.status == website.status && r.publishedAt == website.publishedAt &&
      r.websiteId == website.websiteId && r.clientId == website.clientId && r.templateId == website.templateId
    ensures var p := PublishOutcome(website, confirmed, now);
      p.Some? ==> SavedGeneralKeepingStatus(p.value, general).status == p.value.status
  {
  }

  /** The local state of one settings screen. */
  class SettingsScreen {
    var banners: seq<string>
    var contactEmail: string
    var general: GeneralSettings

    /** The screen opens with the default banners, a contact address at the domain and the website's general fields. */
    constructor(website: Website)
      ensures banners == DefaultBanners
      ensures contactEmail == DefaultContactEmail(website)
      ensures general == InitialGeneral(website)
    {
      banners := DefaultBanners;
      contactEmail := "hello@" + website.domain;
      general := GeneralSettings(website.siteName, website.domain, website.status);
    }

    /** The add-banner prompt; `answer` is what the user typed, `None` when cancelled. */
    method AddBanner(answer: Option<string>)
      modifies this
      ensures banners == BannersAdded(old(banners), answer)
      ensures answer.Some? && answer.value != "" ==> |banners| == |old(banners)| + 1 && banners[|banners| - 1] == answer.value
      ensures contactEmail == old(contactEmail) && general == old(general)
    {
      if answer.Some? && answer.value != "" {
        banners := banners + [answer.value];
      }
    }

    /** The remove button of the banner at `index`. */
    method RemoveBanner(index: int)
      modifies this
      ensures banners == ExceptIndex(old(banners), index)
      ensures 0 <= index < |old(banners)| ==> banners == old(banners)[..index] + old(banners)[index + 1..]
      ensures !(0 <= index < |old(banners)|) ==> banners == old(banners)
      ensures contactEmail == old(contactEmail) && general == old(general)
    {
      ExceptIndexSpec(banners, index);
      banners := ExceptIndex(banners, index);
    }

    method SetSiteName(name: string)
      modifies this
      ensures general == old(general).(siteName := name)
      ensures banners == old(banners) && contactEmail == old(contactEmail)
    {
      general := general.(siteName := name);
    }

    method SetDomain(domain: string)
      modifies this
      ensures general == old(general).(domain := domain)
      ensures banners == old(banners) && contactEmail == old(contactEmail)
    {
      general := general.(domain := domain);
    }

    /** The save button of the general tab: the record handed upward for the current website. */
    method SaveGeneral(website: Website) returns (saved: Website)
      ensures saved == SavedGeneral(website, general)
      ensures saved.status == general.status && saved.publishedAt == website.publishedAt
    {
      saved := website.(siteName := general.siteName, domain := general.domain, status := general.status);
    }
  }
}
