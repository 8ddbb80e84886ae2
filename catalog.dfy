/**
 * The static catalog of job boards: category labels, each with an ordered
 * list of (name, url) sites, and the flattening that "Search All Job Sites"
 * walks to open every URL.
 */
module Catalog {
  import opened Wrappers

  datatype Site = Site(name: string, url: string)
  datatype Category = Category(name: string, sites: seq<Site>)

  /** The declared catalog, in declaration order (the object's keys are not integer-like, so enumeration keeps this order). */
  const JobSites: seq<Category> := [
    Category("Data", [
      Site("Remotive", "https://remotive.com/"),
      Site("We Work Remotely", "https://weworkremotely.com/"),
      Site("Remote OK", "https://remoteok.com/"),
      Site("Otta", "https://otta.com/"),
      Site("AngelList (Wellfound)", "https://wellfound.com/")
    ]),
    Category("Development", [
      Site("Stack Overflow Jobs", "https://stackoverflow.com/jobs"),
      Site("Turing", "https://www.turing.com/"),
      Site("RemoteLeads", "https://remoteleads.io/"),
      Site("Himalayas", "https://himalayas.app/")
    ]),
    Category("Research", [
      Site("UX Jobs Board", "https://uxjobsboard.com/"),
      Site("Working Nomads", "https://www.workingnomads.com/"),
      Site("Contra", "https://contra.com/"),
      Site("Braintrust", "https://www.usebraintrust.com/")
    ]),
    Category("Nonprofit", [
      Site("UN Jobs", "https://unjobs.org/"),
      Site("Impactpool", "https://www.impactpool.org/"),
      Site("Devex", "https://www.devex.com/jobs"),
      Site("ReliefWeb", "https://reliefweb.int/jobs"),
      Site("Idealist", "https://www.idealist.org/en/")
    ])
  ]

  /** `Object.values(...).flat()`: every category's sites, one category after another. */
  function Flatten(cats: seq<Category>): (sites: seq<Site>)
    ensures |sites| == SiteCount(cats)
    decreases |cats|
  {
    if |cats| == 0 then [] else cats[0].sites + Flatten(cats[1..])
  }

  /** The URL of each site, in the same order. */
  function Urls(sites: seq<Site>): (urls: seq<string>)
    ensures |urls| == |sites|
    ensures forall i :: 0 <= i < |sites| ==> urls[i] == sites[i].url
  {
    seq(|sites|, i requires 0 <= i < |sites| => sites[i].url)
  }

  /** The URLs "Search All Job Sites" opens, in the order it opens them. */
  function OpenAllUrls(): seq<string> {
    Urls(Flatten(JobSites))
  }

  lemma UrlsAppend(a: seq<Site>, b: seq<Site>)
    ensures Urls(a + b) == Urls(a) + Urls(b)
  {
  }

  /** The declared catalog flattens to its four site lists, one after another. */
  lemma FlattenJobSites()
    ensures Flatten(JobSites) == JobSites[0].sites + JobSites[1].sites + JobSites[2].sites + JobSites[3].sites
  {
    assert Flatten(JobSites[3..]) == JobSites[3].sites by {
      assert JobSites[3..][1..] == [];
    }
    assert Flatten(JobSites[2..]) == JobSites[2].sites + JobSites[3].sites by {
      assert JobSites[2..][1..] == JobSites[3..];
    }
    assert Flatten(JobSites[1..]) == JobSites[1].sites + JobSites[2].sites + JobSites[3].sites by {
      assert JobSites[1..][1..] == JobSites[2..];
    }
  }

  /** The category labels, in the order the catalog is listed. */
  function Labels(cats: seq<Category>): (labels: seq<string>)
    ensures |labels| == |cats|
    ensures forall i :: 0 <= i < |cats| ==> labels[i] == cats[i].name
  {
    seq(|cats|, i requires 0 <= i < |cats| => cats[i].name)
  }

  /** The position of the first category named `title`, or |cats| when there is none. */
  function Find(cats: seq<Category>, title: string): (k: nat)
    ensures k <= |cats|
    ensures forall i :: 0 <= i < k ==> cats[i].name != title
    ensures k < |cats| ==> cats[k].name == title
    decreases |cats|
  {
    if |cats| == 0 then 0
    else if cats[0].name == title then 0
    else 1 + Find(cats[1..], title)
  }

  /** The sites listed under the first category named `title`, or None when there is none. */
  function SitesOf(cats: seq<Category>, title: string): (r: Option<seq<Site>>)
    ensures r.None? <==> forall i :: 0 <= i < |cats| ==> cats[i].name != title
    ensures r.Some? ==> Find(cats, title) < |cats| && r.value == cats[Find(cats, title)].sites
  {
    var k := Find(cats, title);
    if k < |cats| then Some(cats[k].sites) else None
  }

  /** How many sites the categories list in all. */
  function SiteCount(cats: seq<Category>): nat
    decreases |cats|
  {
    if |cats| == 0 then 0 else |cats[0].sites| + SiteCount(cats[1..])
  }

  // ----- flattening keeps everything, in order -----

  lemma {:induction false} FlattenAppend(a: seq<Category>, b: seq<Category>)
    ensures Flatten(a + b) == Flatten(a) + Flatten(b)
    decreases |a|
  {
    if |a| == 0 {
      assert a + b == b;
    } else {
      assert (a + b)[1..] == a[1..] + b;
      FlattenAppend(a[1..], b);
    }
  }

  /**
   * Site j of category k sits at position |Flatten(cats[..k])| + j: category
   * declaration order first, then site declaration order.
   */
  lemma FlattenAt(cats: seq<Category>, k: nat, j: nat)
    requires k < |cats| && j < |cats[k].sites|
    ensures |Flatten(cats[..k])| + j < |Flatten(cats)|
    ensures Flatten(cats)[|Flatten(cats[..k])| + j] == cats[k].sites[j]
  {
    assert cats == cats[..k] + cats[k..];
    FlattenAppend(cats[..k], cats[k..]);
    assert Flatten(cats[k..]) == cats[k].sites + Flatten(cats[k + 1..]);
  }

  /** A site is in the flattening exactly when some category lists it. */
  lemma {:induction false} FlattenMembership(cats: seq<Category>, s: Site)
    ensures s in Flatten(cats) <==> exists k :: 0 <= k < |cats| && s in cats[k].sites
    decreases |cats|
  {
    if |cats| > 0 {
      FlattenMembership(cats[1..], s);
      if s in Flatten(cats[1..]) {
        var k :| 0 <= k < |cats[1..]| && s in cats[1..][k].sites;
        assert s in cats[k + 1].sites;
      }
      if exists k :: 0 <= k < |cats| && s in cats[k].sites {
        var k :| 0 <= k < |cats| && s in cats[k].sites;
        if k > 0 {
          assert s in cats[1..][k - 1].sites;
        }
      }
    }
  }

  // ----- the declared catalog -----

  lemma CatalogLabels()
    ensures Labels(JobSites) == ["Data", "Development", "Research", "Nonprofit"]
  {
  }

  /** The Data category lists exactly its five boards, in declared order. */
  lemma DataSites()
    ensures SitesOf(JobSites, "Data").Some?
    ensures |SitesOf(JobSites, "Data").value| == 5
    ensures Names(SitesOf(JobSites, "Data").value)
         == ["Remotive", "We Work Remotely", "Remote OK", "Otta", "AngelList (Wellfound)"]
  {
  }

  function Names(sites: seq<Site>): (names: seq<string>)
    ensures |names| == |sites|
    ensures forall i :: 0 <= i < |sites| ==> names[i] == sites[i].name
  {
    seq(|sites|, i requires 0 <= i < |sites| => sites[i].name)
  }

  /** The eighteen declared URLs, catalog order. */
  const DeclaredUrls: seq<string> := [
    "https://remotive.com/", "https://weworkremotely.com/", "https://remoteok.com/",
    "https://otta.com/", "https://wellfound.com/",
    "https://stackoverflow.com/jobs", "https://www.turing.com/", "https://remoteleads.io/",
    "https://himalayas.app/",
    "https://uxjobsboard.com/", "https://www.workingnomads.com/", "https://contra.com/",
    "https://www.usebraintrust.com/",
    "https://unjobs.org/", "https://www.impactpool.org/", "https://www.devex.com/jobs",
    "https://reliefweb.int/jobs", "https://www.idealist.org/en/"]

  /** "Search All Job Sites" opens exactly the declared URLs, in catalog order. */
  lemma OpenAllOrder()
    ensures OpenAllUrls() == DeclaredUrls
  {
    FlattenJobSites();
    var s0, s1, s2, s3 := JobSites[0].sites, JobSites[1].sites, JobSites[2].sites, JobSites[3].sites;
    UrlsAppend(s0, s1);
    UrlsAppend(s0 + s1, s2);
    UrlsAppend(s0 + s1 + s2, s3);
    assert Urls(s0) == DeclaredUrls[..5];
    assert Urls(s1) == DeclaredUrls[5..9];
    assert Urls(s2) == DeclaredUrls[9..13];
    assert Urls(s3) == DeclaredUrls[13..];
    assert DeclaredUrls == DeclaredUrls[..5] + DeclaredUrls[5..9] + DeclaredUrls[9..13] + DeclaredUrls[13..];
  }

  /** No URL repeats, so each one is opened once. */
  predicate Distinct(urls: seq<string>) {
    forall i, j :: 0 <= i < j < |urls| ==> urls[i] != urls[j]
  }

  /** Two characters, the 14th and 15th, that already tell the declared URLs apart. */
  function Key(url: string): (char, char)
    requires |url| > 14
  {
    (url[13], url[14])
  }

  lemma DeclaredUrlsDistinct()
    ensures |DeclaredUrls| == 18
    ensures Distinct(DeclaredUrls)
  {
    var u := DeclaredUrls;
    var keys := [('i', 'v'), ('k', 'r'), ('e', 'o'), ('c', 'o'), ('o', 'u'), ('o', 'v'), ('u', 'r'), ('e', 'l'), ('a', 'y'),
                 ('s', 'b'), ('o', 'r'), ('a', '.'), ('s', 'e'), ('s', '.'), ('m', 'p'), ('e', 'v'), ('f', 'w'), ('d', 'e')];
    assert forall i :: 0 <= i < 18 ==> |u[i]| > 14 && Key(u[i]) == keys[i];
    assert forall i, j :: 0 <= i < j < 18 ==> keys[i] != keys[j];
  }

  /**
   * Every declared URL is opened exactly once: the list has 18 entries, none
   * repeated, and each site of each category is among them.
   */
  lemma OpenAllEachOnce()
    ensures |OpenAllUrls()| == 18
    ensures Distinct(OpenAllUrls())
    ensures forall k, j :: 0 <= k < |JobSites| && 0 <= j < |JobSites[k].sites| ==>
      JobSites[k].sites[j].url in OpenAllUrls()
  {
    OpenAllOrder();
    DeclaredUrlsDistinct();
    forall k, j | 0 <= k < |JobSites| && 0 <= j < |JobSites[k].sites|
      ensures JobSites[k].sites[j].url in OpenAllUrls()
    {
      FlattenAt(JobSites, k, j);
    }
  }
}
