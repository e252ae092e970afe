/** The two encodings of a creator's social links.

    On stream rows each link is stored as a one-key JSON object
    (`{"twitter": url}`), written by `stringifySocialLinks` and read back by
    `parseSocialLinks`. On profile rows links are bare URLs, and the reader
    guesses the platform from a domain substring, first match wins. */
module SocialLinks {
  import opened Common

  /** The four link slots of a profile form; None is an absent key. */
  datatype Links = Links(twitter: Option<string>, instagram: Option<string>, youtube: Option<string>, website: Option<string>)

  const NoLinks := Links(None, None, None, None)

  datatype Platform = Twitter | Instagram | YouTube | Website

  function KeyOf(p: Platform): string {
    match p
    case Twitter => "twitter"
    case Instagram => "instagram"
    case YouTube => "youtube"
    case Website => "website"
  }

  function Slot(l: Links, p: Platform): Option<string> {
    match p
    case Twitter => l.twitter
    case Instagram => l.instagram
    case YouTube => l.youtube
    case Website => l.website
  }

  function SetSlot(l: Links, p: Platform, v: Option<string>): (r: Links)
    ensures Slot(r, p) == v
    ensures forall q :: q != p ==> Slot(r, q) == Slot(l, q)
  {
    match p
    case Twitter => l.(twitter := v)
    case Instagram => l.(instagram := v)
    case YouTube => l.(youtube := v)
    case Website => l.(website := v)
  }

  /** Every slot that holds an empty string is made absent: the links as the
      stored forms can represent them. */
  function Normalize(l: Links): (r: Links)
    ensures forall p :: Slot(r, p) == (if Present(Slot(l, p)) then Slot(l, p) else None)
  {
    Links(if Present(l.twitter) then l.twitter else None,
          if Present(l.instagram) then l.instagram else None,
          if Present(l.youtube) then l.youtube else None,
          if Present(l.website) then l.website else None)
  }

  // ---------------------------------------------------------------------------
  // Stream rows: one-key JSON entries

  /** A stored entry as `JSON.parse` sees it: an object with its keys in
      order and their string values, text that does not parse, or a value
      that is not a string at all. */
  datatype LinkEntry = Object(fields: seq<(string, string)>) | Unparsable | NotAString

  function PlatformOfKey(key: string): Option<Platform> {
    if key == "twitter" then Some(Twitter)
    else if key == "instagram" then Some(Instagram)
    else if key == "youtube" then Some(YouTube)
    else if key == "website" then Some(Website)
    else None
  }

  lemma PlatformOfKeyInverse(p: Platform)
    ensures PlatformOfKey(KeyOf(p)) == Some(p)
  {
  }

  /** One key of a parsed object: a known key with a truthy value sets its slot. */
  function AbsorbField(l: Links, f: (string, string)): Links {
    if PlatformOfKey(f.0).Some? && f.1 != "" then SetSlot(l, PlatformOfKey(f.0).value, Some(f.1)) else l
  }

  /** The keys of one object, in order; later keys overwrite earlier ones. */
  function AbsorbFields(l: Links, fs: seq<(string, string)>): Links {
    if fs == [] then l else AbsorbField(AbsorbFields(l, fs[..|fs| - 1]), fs[|fs| - 1])
  }

  function AbsorbEntry(l: Links, e: LinkEntry): Links {
    match e
    case Object(fs) => AbsorbFields(l, fs)
    case Unparsable => l
    case NotAString => l
  }

  function ParseEntries(es: seq<LinkEntry>): Links {
    if es == [] then NoLinks else AbsorbEntry(ParseEntries(es[..|es| - 1]), es[|es| - 1])
  }

  /** `parseSocialLinks`: a missing array gives no links. */
  function ParseSocialLinks(es: Option<seq<LinkEntry>>): (r: Links)
    ensures es.None? ==> r == NoLinks
  {
    match es
    case None => NoLinks
    case Some(s) => ParseEntries(s)
  }

  /** The place of a platform in the fixed writing order twitter, instagram,
      youtube, website. */
  function Rank(p: Platform): nat {
    match p
    case Twitter => 0
    case Instagram => 1
    case YouTube => 2
    case Website => 3
  }

  function Presence(l: Links, p: Platform): nat {
    if Present(Slot(l, p)) then 1 else 0
  }

  /** The number of non-empty slots. */
  function PresentCount(l: Links): nat {
    Presence(l, Twitter) + Presence(l, Instagram) + Presence(l, YouTube) + Presence(l, Website)
  }

  /** The number of non-empty slots written before platform p: the index p's
      link takes in either encoding. */
  function Position(l: Links, p: Platform): nat {
    (if Rank(Twitter) < Rank(p) then Presence(l, Twitter) else 0)
    + (if Rank(Instagram) < Rank(p) then Presence(l, Instagram) else 0)
    + (if Rank(YouTube) < Rank(p) then Presence(l, YouTube) else 0)
    + (if Rank(Website) < Rank(p) then Presence(l, Website) else 0)
  }

  /** Two non-empty slots are written in the order of their platforms. */
  lemma PositionsFollowRank(l: Links, p: Platform, q: Platform)
    requires Present(Slot(l, p)) && Present(Slot(l, q))
    ensures Rank(p) < Rank(q) <==> Position(l, p) < Position(l, q)
    ensures Position(l, p) < PresentCount(l)
  {
  }

  function EntryFor(l: Links, p: Platform): seq<LinkEntry> {
    if Present(Slot(l, p)) then [Object([(KeyOf(p), Slot(l, p).value)])] else []
  }

  /** `stringifySocialLinks`: one single-key entry per non-empty slot, in the
      order twitter, instagram, youtube, website. */
  function StringifySocialLinks(l: Links): (r: seq<LinkEntry>)
    ensures |r| <= 4
    ensures forall i :: 0 <= i < |r| ==> r[i].Object? && |r[i].fields| == 1 && r[i].fields[0].1 != ""
  {
    EntryFor(l, Twitter) + EntryFor(l, Instagram) + EntryFor(l, YouTube) + EntryFor(l, Website)
  }

  /** Each non-empty slot is written as the one-key entry of its platform,
      at the index its rank gives it; an empty slot is not written at all. */
  lemma {:induction false} StringifyPlacesEachSlot(l: Links, p: Platform)
    ensures |StringifySocialLinks(l)| == PresentCount(l)
    ensures var r := StringifySocialLinks(l);
      Present(Slot(l, p)) ==> Position(l, p) < |r| && r[Position(l, p)] == Object([(KeyOf(p), Slot(l, p).value)])
    ensures var r := StringifySocialLinks(l);
      !Present(Slot(l, p)) ==> forall i :: 0 <= i < |r| ==> r[i].fields[0].0 != KeyOf(p)
  {
    var e1, e2, e3, e4 := EntryFor(l, Twitter), EntryFor(l, Instagram), EntryFor(l, YouTube), EntryFor(l, Website);
    var r := StringifySocialLinks(l);
    assert r == e1 + e2 + e3 + e4;
    assert |e1| == Presence(l, Twitter) && |e2| == Presence(l, Instagram);
    assert |e3| == Presence(l, YouTube) && |e4| == Presence(l, Website);
    if Present(Slot(l, p)) {
      match p
      case Twitter => assert r[0] == e1[0];
      case Instagram => assert r[|e1|] == e2[0];
      case YouTube => assert r[|e1| + |e2|] == e3[0];
      case Website => assert r[|e1| + |e2| + |e3|] == e4[0];
    } else {
      forall i | 0 <= i < |r|
        ensures r[i].fields[0].0 != KeyOf(p)
      {
        EntryAt(l, i);
      }
    }
  }

  /** Every written entry names a known platform whose slot is non-empty,
      carries that slot's value, and sits at that platform's index. */
  lemma {:induction false} EntryAt(l: Links, i: nat)
    requires i < |StringifySocialLinks(l)|
    ensures var r := StringifySocialLinks(l); var p := PlatformOfKey(r[i].fields[0].0);
      && p.Some? && Present(Slot(l, p.value)) && Position(l, p.value) == i
      && r[i] == Object([(KeyOf(p.value), Slot(l, p.value).value)])
  {
    var e1, e2, e3, e4 := EntryFor(l, Twitter), EntryFor(l, Instagram), EntryFor(l, YouTube), EntryFor(l, Website);
    var r := StringifySocialLinks(l);
    assert r == e1 + e2 + e3 + e4;
    if i < |e1| {
      assert r[i] == e1[0];
    } else if i < |e1| + |e2| {
      assert r[i] == e2[0];
    } else if i < |e1| + |e2| + |e3| {
      assert r[i] == e3[0];
    } else {
      assert r[i] == e4[0];
    }
  }

  /** The entries come out in the order twitter, instagram, youtube, website. */
  lemma StringifyKeepsRankOrder(l: Links, i: nat, j: nat)
    requires i < j < |StringifySocialLinks(l)|
    ensures var r := StringifySocialLinks(l);
      Rank(PlatformOfKey(r[i].fields[0].0).value) < Rank(PlatformOfKey(r[j].fields[0].0).value)
  {
    EntryAt(l, i);
    EntryAt(l, j);
    var r := StringifySocialLinks(l);
    PositionsFollowRank(l, PlatformOfKey(r[i].fields[0].0).value, PlatformOfKey(r[j].fields[0].0).value);
  }

  lemma ParseAppend(es: seq<LinkEntry>, e: LinkEntry)
    ensures ParseEntries(es + [e]) == AbsorbEntry(ParseEntries(es), e)
  {
    assert (es + [e])[..|es + [e]| - 1] == es;
  }

  /** An entry that cannot be read is skipped. */
  lemma ParseSkipsUnreadable(es: seq<LinkEntry>)
    ensures ParseEntries(es + [Unparsable]) == ParseEntries(es)
    ensures ParseEntries(es + [NotAString]) == ParseEntries(es)
  {
    ParseAppend(es, Unparsable);
    ParseAppend(es, NotAString);
  }

  /** A later one-key entry overwrites the slot of the platform it names
      and leaves the others as they were, so the last truthy value for each
      platform wins; an entry with an unknown key or an empty value changes
      nothing. */
  lemma ParseLaterEntryOverwrites(es: seq<LinkEntry>, k: string, v: string)
    ensures var before, after := ParseEntries(es), ParseEntries(es + [Object([(k, v)])]);
      PlatformOfKey(k).Some? && v != "" ==>
        && Slot(after, PlatformOfKey(k).value) == Some(v)
        && forall q :: q != PlatformOfKey(k).value ==> Slot(after, q) == Slot(before, q)
    ensures PlatformOfKey(k).None? || v == "" ==> ParseEntries(es + [Object([(k, v)])]) == ParseEntries(es)
  {
    var l := ParseEntries(es);
    ParseAppend(es, Object([(k, v)]));
    assert [(k, v)][..0] == [];
    assert AbsorbFields(l, [(k, v)]) == AbsorbField(AbsorbFields(l, []), (k, v));
  }

  lemma {:induction false} ParseEntriesConcat(es: seq<LinkEntry>, fs: seq<LinkEntry>)
    ensures ParseEntries(es + fs) == ParseAllFrom(ParseEntries(es), fs)
    decreases |fs|
  {
    if fs == [] {
      assert es + fs == es;
    } else {
      var init := fs[..|fs| - 1];
      assert es + fs == (es + init) + [fs[|fs| - 1]];
      ParseAppend(es + init, fs[|fs| - 1]);
      ParseEntriesConcat(es, init);
    }
  }

  function ParseAllFrom(l: Links, es: seq<LinkEntry>): Links {
    if es == [] then l else AbsorbEntry(ParseAllFrom(l, es[..|es| - 1]), es[|es| - 1])
  }

  /** Parsing what was stringified gives back the form's links, restricted to
      their non-empty slots. */
  lemma StringifyThenParse(l: Links)
    ensures ParseSocialLinks(Some(StringifySocialLinks(l))) == Normalize(l)
  {
    var e1 := EntryFor(l, Twitter);
    var e2 := EntryFor(l, Instagram);
    var e3 := EntryFor(l, YouTube);
    var e4 := EntryFor(l, Website);
    OneEntry(NoLinks, l, Twitter);
    ParseEntriesConcat(e1, e2);
    OneEntry(ParseEntries(e1), l, Instagram);
    ParseEntriesConcat(e1 + e2, e3);
    OneEntry(ParseEntries(e1 + e2), l, YouTube);
    ParseEntriesConcat(e1 + e2 + e3, e4);
    OneEntry(ParseEntries(e1 + e2 + e3), l, Website);
    assert e1 == [] + e1;
    ParseEntriesConcat([], e1);
  }

  lemma OneEntry(acc: Links, l: Links, p: Platform)
    ensures ParseAllFrom(acc, EntryFor(l, p)) == if Present(Slot(l, p)) then SetSlot(acc, p, Slot(l, p)) else acc
  {
    if Present(Slot(l, p)) {
      var fs := [(KeyOf(p), Slot(l, p).value)];
      assert AbsorbFields(acc, fs) == AbsorbField(AbsorbFields(acc, []), fs[0]);
      PlatformOfKeyInverse(p);
    }
  }

  /** The parsed links never hold an empty string, so a second round trip is
      the identity. */
  lemma {:induction false} ParsedLinksAreNormal(es: seq<LinkEntry>)
    ensures Normalize(ParseEntries(es)) == ParseEntries(es)
  {
    if es != [] {
      ParsedLinksAreNormal(es[..|es| - 1]);
      match es[|es| - 1]
      case Object(fs) => AbsorbFieldsKeepsNormal(ParseEntries(es[..|es| - 1]), fs);
      case Unparsable =>
      case NotAString =>
    }
  }

  lemma {:induction false} AbsorbFieldsKeepsNormal(l: Links, fs: seq<(string, string)>)
    requires Normalize(l) == l
    ensures Normalize(AbsorbFields(l, fs)) == AbsorbFields(l, fs)
  {
    if fs != [] {
      AbsorbFieldsKeepsNormal(l, fs[..|fs| - 1]);
    }
  }

  // ---------------------------------------------------------------------------
  // Profile rows: bare URLs classified by domain substring

  /** First match wins: twitter.com or x.com, then instagram.com, then
      youtube.com, and anything else is a website. */
  function Classify(url: string): (p: Platform)
    ensures p == Twitter <==> Contains(url, "twitter.com") || Contains(url, "x.com")
    ensures p == Instagram <==> !Contains(url, "twitter.com") && !Contains(url, "x.com") && Contains(url, "instagram.com")
    ensures p == YouTube <==> !Contains(url, "twitter.com") && !Contains(url, "x.com") && !Contains(url, "instagram.com") && Contains(url, "youtube.com")
  {
    if Contains(url, "twitter.com") || Contains(url, "x.com") then Twitter
    else if Contains(url, "instagram.com") then Instagram
    else if Contains(url, "youtube.com") then YouTube
    else Website
  }

  /** Each URL goes to exactly one slot; later URLs overwrite earlier ones. */
  function LinksFromUrls(urls: seq<string>): (r: Links)
    ensures forall p :: Slot(r, p).Some? ==> Slot(r, p).value in urls && Classify(Slot(r, p).value) == p
  {
    if urls == [] then NoLinks
    else var l := LinksFromUrls(urls[..|urls| - 1]); var u := urls[|urls| - 1];
      SetSlot(l, Classify(u), Some(u))
  }

  function UrlFor(l: Links, p: Platform): seq<string> {
    if Present(Slot(l, p)) then [Slot(l, p).value] else []
  }

  /** The non-empty slots as bare URLs, in the order twitter, instagram, youtube, website. */
  function UrlsFromLinks(l: Links): (r: seq<string>)
    ensures |r| == PresentCount(l) <= 4
    ensures forall i :: 0 <= i < |r| ==> r[i] != ""
  {
    UrlFor(l, Twitter) + UrlFor(l, Instagram) + UrlFor(l, YouTube) + UrlFor(l, Website)
  }

  /** The bare-URL encoding writes the same values, at the same indexes, as
      the one-key entries: index i of the URL list is the value of entry i. */
  lemma UrlsMatchEntries(l: Links)
    ensures var u, e := UrlsFromLinks(l), StringifySocialLinks(l);
      |u| == |e| && forall i :: 0 <= i < |u| ==> e[i] == Object([(e[i].fields[0].0, u[i])])
  {
    var u, e := UrlsFromLinks(l), StringifySocialLinks(l);
    UrlsCount(l);
    StringifyPlacesEachSlot(l, Twitter);
    forall i | 0 <= i < |u|
      ensures e[i] == Object([(e[i].fields[0].0, u[i])])
    {
      UrlMatchesEntry(l, i);
    }
  }

  lemma UrlsCount(l: Links)
    ensures |UrlsFromLinks(l)| == PresentCount(l)
  {
    var u1, u2, u3, u4 := UrlFor(l, Twitter), UrlFor(l, Instagram), UrlFor(l, YouTube), UrlFor(l, Website);
    assert |u1| == Presence(l, Twitter) && |u2| == Presence(l, Instagram);
    assert |u3| == Presence(l, YouTube) && |u4| == Presence(l, Website);
  }

  lemma {:induction false} UrlMatchesEntry(l: Links, i: nat)
    requires i < |UrlsFromLinks(l)| && i < |StringifySocialLinks(l)|
    ensures StringifySocialLinks(l)[i] == Object([(StringifySocialLinks(l)[i].fields[0].0, UrlsFromLinks(l)[i])])
  {
    var u, e := UrlsFromLinks(l), StringifySocialLinks(l);
    var u1, u2, u3, u4 := UrlFor(l, Twitter), UrlFor(l, Instagram), UrlFor(l, YouTube), UrlFor(l, Website);
    var e1, e2, e3, e4 := EntryFor(l, Twitter), EntryFor(l, Instagram), EntryFor(l, YouTube), EntryFor(l, Website);
    assert u == u1 + u2 + u3 + u4;
    assert e == e1 + e2 + e3 + e4;
    if i < |u1| {
      assert u[i] == u1[0] && e[i] == e1[0];
    } else if i < |u1| + |u2| {
      assert u[i] == u2[0] && e[i] == e2[0];
    } else if i < |u1| + |u2| + |u3| {
      assert u[i] == u3[0] && e[i] == e3[0];
    } else {
      assert u[i] == u4[0] && e[i] == e4[0];
    }
  }

  /** Each non-empty slot's URL is written at the index its rank gives it,
      and every written URL is the value of some non-empty slot at its index,
      so the list holds exactly the non-empty slots in platform order. */
  lemma UrlsPlaceEachSlot(l: Links, p: Platform, i: nat)
    ensures var u := UrlsFromLinks(l);
      Present(Slot(l, p)) ==> Position(l, p) < |u| && u[Position(l, p)] == Slot(l, p).value
    ensures var u := UrlsFromLinks(l);
      i < |u| ==> exists q :: Present(Slot(l, q)) && Position(l, q) == i && u[i] == Slot(l, q).value
  {
    UrlsMatchEntries(l);
    StringifyPlacesEachSlot(l, p);
    var u := UrlsFromLinks(l);
    if i < |u| {
      EntryAt(l, i);
      var q := PlatformOfKey(StringifySocialLinks(l)[i].fields[0].0).value;
      assert Present(Slot(l, q)) && Position(l, q) == i && u[i] == Slot(l, q).value;
    }
  }

  /** A slot is the last URL that classifies to it. */
  lemma {:induction false} LinksFromUrlsSlot(urls: seq<string>, p: Platform)
    ensures Slot(LinksFromUrls(urls), p).Some? <==> exists i :: 0 <= i < |urls| && Classify(urls[i]) == p
    ensures Slot(LinksFromUrls(urls), p).Some? ==>
      exists i :: 0 <= i < |urls| && Classify(urls[i]) == p && Slot(LinksFromUrls(urls), p).value == urls[i]
        && forall j :: i < j < |urls| ==> Classify(urls[j]) != p
  {
    if urls != [] {
      var init := urls[..|urls| - 1];
      LinksFromUrlsSlot(init, p);
      if Classify(urls[|urls| - 1]) != p {
        if exists i :: 0 <= i < |urls| && Classify(urls[i]) == p {
          var i :| 0 <= i < |urls| && Classify(urls[i]) == p;
          assert init[i] == urls[i];
        }
        if Slot(LinksFromUrls(urls), p).Some? {
          var i :| 0 <= i < |init| && Classify(init[i]) == p && Slot(LinksFromUrls(init), p).value == init[i]
            && forall j :: i < j < |init| ==> Classify(init[j]) != p;
          assert urls[i] == init[i];
          forall j | i < j < |urls|
            ensures Classify(urls[j]) != p
          {
            if j < |init| {
              assert urls[j] == init[j];
            }
          }
        }
      }
    }
  }

  /** Every slot holds a URL that really classifies to it. */
  predicate WellClassified(l: Links) {
    forall p :: Present(Slot(l, p)) ==> Classify(Slot(l, p).value) == p
  }

  lemma OneUrl(a: seq<string>, l: Links, p: Platform)
    requires WellClassified(l)
    ensures LinksFromUrls(a + UrlFor(l, p)) == if Present(Slot(l, p)) then SetSlot(LinksFromUrls(a), p, Slot(l, p)) else LinksFromUrls(a)
  {
    if Present(Slot(l, p)) {
      var b := a + UrlFor(l, p);
      assert b[..|b| - 1] == a;
    } else {
      assert a + UrlFor(l, p) == a;
    }
  }

  /** Writing the links as URLs and classifying them back restores every
      non-empty slot when each URL names its own platform's domain. */
  lemma UrlsRoundTrip(l: Links)
    requires WellClassified(l)
    ensures LinksFromUrls(UrlsFromLinks(l)) == Normalize(l)
  {
    var u1 := UrlFor(l, Twitter);
    var u2 := UrlFor(l, Instagram);
    var u3 := UrlFor(l, YouTube);
    var u4 := UrlFor(l, Website);
    OneUrl([], l, Twitter);
    assert [] + u1 == u1;
    OneUrl(u1, l, Instagram);
    OneUrl(u1 + u2, l, YouTube);
    OneUrl(u1 + u2 + u3, l, Website);
    var r := LinksFromUrls(UrlsFromLinks(l));
    assert Slot(r, Twitter) == Slot(Normalize(l), Twitter);
    assert Slot(r, Instagram) == Slot(Normalize(l), Instagram);
    assert Slot(r, YouTube) == Slot(Normalize(l), YouTube);
    assert Slot(r, Website) == Slot(Normalize(l), Website);
  }

  /** The test is a substring test, not a domain test: a link to
      dropbox.com contains "x.com" and is read back as the twitter link. */
  lemma SubstringMatchMisreadsDomains()
    ensures Classify("https://dropbox.com/s/a") == Twitter
  {
    assert OccursAt("https://dropbox.com/s/a", "x.com", 14);
    ContainsIffOccurs("https://dropbox.com/s/a", "x.com");
  }
}
