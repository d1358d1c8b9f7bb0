/** The filtering loop of `parse_ads` in main.py: what happens to the candidates that the
    page script hands over. */
module AdFilter {
  import opened Json
  import opened Strings
  import opened Flow
  import opened FlowLaws
  import opened Urls
  import opened Redirects

  /** A raw block whose clean URL has been picked; `broken` when processing it raises. */
  datatype Candidate = Candidate(broken: bool, cleanUrl: string, displayUrl: string, title: string)

  datatype Settings = Settings(lib: UrlLib, myDomains: seq<string>, targets: seq<string>)

  datatype Verdict = Failed | NoDomain | Internal | Own | Keepable

  datatype Drops = Drops(failed: nat, noDomain: nat, internal: nat, own: nat, duplicate: nat)

  const GOOGLE: seq<string> := ["google.com", "google.ua", "googleusercontent.com", "googlesyndication.com"]

  function DomainOf(cfg: Settings, c: Candidate): string {
    var domain := ExtractDomain(cfg.lib, c.cleanUrl);
    if domain != "" then domain else ExtractDomain(cfg.lib, c.displayUrl)
  }

  function Judge(cfg: Settings, c: Candidate): Verdict {
    var domain := DomainOf(cfg, c);
    if c.broken then Failed
    else if domain == "" then NoDomain
    else if exists g :: g in GOOGLE && Contains(domain, g) then Internal
    else if Under(Lower(domain), LowerAll(cfg.myDomains)) then Own
    else Keepable
  }

  function AdOf(cfg: Settings, query: string, c: Candidate): Value {
    var domain := DomainOf(cfg, c);
    Record(query, c.title, c.displayUrl, c.cleanUrl, domain, exists t :: t in cfg.targets && Contains(domain, t))
  }

  function Record(query: string, title: string, displayUrl: string, cleanUrl: string, domain: string, target: bool): Value {
    Dict(map["query" := Text(query), "title" := Text(title), "display_url" := Text(displayUrl),
             "clean_url" := Text(cleanUrl), "domain" := Text(domain), "is_target" := Bool(target)])
  }

  /** What the loop body learns about one candidate. */
  datatype Mark = Mark(verdict: Verdict, domain: string, ad: Value)

  function MarkOf(cfg: Settings, query: string, c: Candidate): Mark {
    Mark(Judge(cfg, c), DomainOf(cfg, c), AdOf(cfg, query, c))
  }

  /** How the candidates of one page are examined. */
  type Examiner = Candidate -> Mark

  function ExaminerOf(cfg: Settings, query: string): Examiner {
    c => MarkOf(cfg, query, c)
  }

  function Marks(examine: Examiner, raws: seq<Candidate>): (r: seq<Mark>)
    ensures |r| == |raws| && forall i :: 0 <= i < |raws| ==> r[i] == examine(raws[i])
  {
    seq(|raws|, i requires 0 <= i < |raws| => examine(raws[i]))
  }

  // ── the specification: first keepable candidate per domain ────

  predicate IsFirst(marks: seq<Mark>, i: nat)
    requires i < |marks|
  {
    && marks[i].verdict.Keepable?
    && forall j :: 0 <= j < i && marks[j].verdict.Keepable? ==> marks[j].domain != marks[i].domain
  }

  /** The ads of the first candidates among the first `n`, in page order. */
  function Kept(marks: seq<Mark>, n: nat): seq<Value>
    requires n <= |marks|
  {
    if n == 0 then [] else Kept(marks, n - 1) + (if IsFirst(marks, n - 1) then [marks[n - 1].ad] else [])
  }

  function Count(marks: seq<Mark>, n: nat, v: Verdict): nat
    requires n <= |marks|
  {
    if n == 0 then 0 else Count(marks, n - 1, v) + (if marks[n - 1].verdict == v then 1 else 0)
  }

  // ── the loop ──────────────────────────────────────────────────

  /** The drop counters after `n` candidates. */
  function Tally(marks: seq<Mark>, n: nat): Drops
    requires n <= |marks|
  {
    if n == 0 then Drops(0, 0, 0, 0, 0)
    else
      var d := Tally(marks, n - 1);
      match marks[n - 1].verdict
      case Failed => d.(failed := d.failed + 1)
      case NoDomain => d.(noDomain := d.noDomain + 1)
      case Internal => d.(internal := d.internal + 1)
      case Own => d.(own := d.own + 1)
      case Keepable => if IsFirst(marks, n - 1) then d else d.(duplicate := d.duplicate + 1)
  }

  function SeenDomains(marks: seq<Mark>, n: nat): set<string>
    requires n <= |marks|
  {
    if n == 0 then {}
    else SeenDomains(marks, n - 1) + (if marks[n - 1].verdict.Keepable? then {marks[n - 1].domain} else {})
  }

  lemma {:induction false} SeenIsEarlier(marks: seq<Mark>, n: nat, domain: string)
    requires n <= |marks|
    ensures domain in SeenDomains(marks, n) <==>
              exists j :: 0 <= j < n && marks[j].verdict.Keepable? && marks[j].domain == domain
  {
    if n > 0 {
      SeenIsEarlier(marks, n - 1, domain);
    }
  }

  lemma FirstIsUnseen(marks: seq<Mark>, n: nat)
    requires n < |marks|
    ensures IsFirst(marks, n) <==> marks[n].verdict.Keepable? && marks[n].domain !in SeenDomains(marks, n)
  {
    SeenIsEarlier(marks, n, marks[n].domain);
  }

  /** `parse_ads` once the page script has run. */
  method ParseAds(cfg: Settings, query: string, raws: seq<Candidate>) returns (ads: seq<Value>, drops: Drops)
    ensures ads == Kept(Marks(ExaminerOf(cfg, query), raws), |raws|)
    ensures drops == Tally(Marks(ExaminerOf(cfg, query), raws), |raws|)
    ensures forall domain :: Shown(ads, domain) <==> AdmittedOn(cfg, raws, domain)
  {
    ads, drops := FilterAds(ExaminerOf(cfg, query), raws);
    forall domain ensures Shown(ads, domain) <==> AdmittedOn(cfg, raws, domain) {
      PageHasDomainIff(cfg, query, raws, domain);
    }
  }

  /** The loop: keeps the first ad of every admissible domain and accounts for every
      candidate. */
  method FilterAds(examine: Examiner, raws: seq<Candidate>) returns (ads: seq<Value>, drops: Drops)
    ensures ads == Kept(Marks(examine, raws), |raws|) && drops == Tally(Marks(examine, raws), |raws|)
  {
    ads := [];
    drops := Drops(0, 0, 0, 0, 0);
    var seen: set<string> := {};
    ghost var marks := Marks(examine, raws);
    for n := 0 to |raws|
      invariant ads == Kept(marks, n) && drops == Tally(marks, n)
      invariant seen == SeenDomains(marks, n)
    {
      var mark := examine(raws[n]);
      FirstIsUnseen(marks, n);
      match mark.verdict
      case Failed => drops := drops.(failed := drops.failed + 1);
      case NoDomain => drops := drops.(noDomain := drops.noDomain + 1);
      case Internal => drops := drops.(internal := drops.internal + 1);
      case Own => drops := drops.(own := drops.own + 1);
      case Keepable =>
        if mark.domain in seen {
          drops := drops.(duplicate := drops.duplicate + 1);
        } else {
          seen := seen + {mark.domain};
          ads := ads + [mark.ad];
        }
    }
  }

  /** Every counter counts its verdict, and no candidate is counted twice or not at all. */
  lemma {:induction false} NoCandidateIsLost(marks: seq<Mark>, n: nat)
    requires n <= |marks|
    ensures var d, kept := Tally(marks, n), |Kept(marks, n)|;
            && d.failed == Count(marks, n, Failed) && d.noDomain == Count(marks, n, NoDomain)
            && d.internal == Count(marks, n, Internal) && d.own == Count(marks, n, Own)
            && kept + d.duplicate == Count(marks, n, Keepable)
            && kept + d.own + d.internal + d.noDomain + d.duplicate + d.failed == n
  {
    if n > 0 {
      NoCandidateIsLost(marks, n - 1);
    }
  }

  // ── what it is for ────────────────────────────────────────────

  predicate GoodMark(domains: seq<string>, m: Mark) {
    m.verdict.Keepable? ==> Foreign(domains, m.ad) && AdDomain(m.ad) == m.domain
  }

  lemma MarkIsGood(cfg: Settings, query: string, c: Candidate)
    ensures GoodMark(cfg.myDomains, MarkOf(cfg, query, c))
  {
    assert AdDomain(AdOf(cfg, query, c)) == DomainOf(cfg, c);
  }

  lemma {:induction false} KeptIsForeign(domains: seq<string>, marks: seq<Mark>, n: nat)
    requires n <= |marks| && forall i :: 0 <= i < n ==> GoodMark(domains, marks[i])
    ensures ForeignAds(domains, Kept(marks, n))
    ensures forall ad :: ad in Kept(marks, n) ==>
              exists j :: 0 <= j < n && IsFirst(marks, j) && ad == marks[j].ad
  {
    if n > 0 {
      KeptIsForeign(domains, marks, n - 1);
      if IsFirst(marks, n - 1) {
        var before := Kept(marks, n - 1);
        forall ad | ad in before ensures AdDomain(ad) != marks[n - 1].domain {
          var j :| 0 <= j < n - 1 && IsFirst(marks, j) && ad == marks[j].ad;
          assert GoodMark(domains, marks[j]);
        }
        assert GoodMark(domains, marks[n - 1]);
      }
    }
  }

  /** No admissible domain is lost: its first candidate is kept. */
  lemma {:induction false} KeptCoversDomains(marks: seq<Mark>, i: nat, n: nat)
    requires i < n <= |marks| && marks[i].verdict.Keepable?
    ensures exists j :: 0 <= j <= i && IsFirst(marks, j) && marks[j].domain == marks[i].domain
                        && marks[j].ad in Kept(marks, n)
    decreases i
  {
    if IsFirst(marks, i) {
      assert marks[i].ad in Kept(marks, i + 1);
      KeptGrows(marks, i + 1, n);
    } else {
      var j :| 0 <= j < i && marks[j].verdict.Keepable? && marks[j].domain == marks[i].domain;
      KeptCoversDomains(marks, j, n);
    }
  }

  lemma {:induction false} KeptGrows(marks: seq<Mark>, m: nat, n: nat)
    requires m <= n <= |marks|
    ensures Kept(marks, m) <= Kept(marks, n)
    decreases n - m
  {
    if m < n {
      KeptGrows(marks, m, n - 1);
    }
  }

  // ── which candidates are kept ─────────────────────────────────

  /** One of Google's own domains. */
  predicate Googles(domain: string) {
    Contains(domain, "google.com") || Contains(domain, "google.ua")
    || Contains(domain, "googleusercontent.com") || Contains(domain, "googlesyndication.com")
  }

  /** In any case of letters, the domain or a subdomain of one of these settings. */
  ghost predicate Belongs(domain: string, settings: seq<string>) {
    exists i :: 0 <= i < |settings| && Covers(Lower(settings[i]), Lower(domain))
  }

  lemma GooglesIff(domain: string)
    ensures Googles(domain) <==> exists g :: g in GOOGLE && Contains(domain, g)
  {
    assert GOOGLE[0] == "google.com" && GOOGLE[1] == "google.ua";
    assert GOOGLE[2] == "googleusercontent.com" && GOOGLE[3] == "googlesyndication.com";
  }

  /** What becomes of a candidate, by its domain: a broken block, no domain, Google's own
      and the user's own domains are dropped in this order, everything else is admitted. */
  lemma VerdictIff(cfg: Settings, c: Candidate)
    ensures var d := DomainOf(cfg, c);
            && (Judge(cfg, c) == Failed <==> c.broken)
            && (Judge(cfg, c) == NoDomain <==> !c.broken && d == "")
            && (Judge(cfg, c) == Internal <==> !c.broken && d != "" && Googles(d))
            && (Judge(cfg, c) == Own <==> !c.broken && d != "" && !Googles(d) && Belongs(d, cfg.myDomains))
            && (Judge(cfg, c) == Keepable <==> !c.broken && d != "" && !Googles(d) && !Belongs(d, cfg.myDomains))
  {
    GooglesIff(DomainOf(cfg, c));
    UnderCovers(Lower(DomainOf(cfg, c)), cfg.myDomains);
  }

  /** A candidate whose clean URL names a host belongs to that host, whatever is displayed;
      one whose clean URL has no slash belongs to the displayed URL. */
  lemma DomainOfCandidate(cfg: Settings, c: Candidate, scheme: string, host: string, tail: string)
    requires IsScheme(scheme) && IsHost(host) && IsTail(tail) && !cfg.lib.rejects(host)
    ensures c.cleanUrl == scheme + "://" + host + tail && Bare(Lower(host)) != "" ==> DomainOf(cfg, c) == Bare(Lower(host))
    ensures '/' !in c.cleanUrl && c.displayUrl == scheme + "://" + host + tail ==> DomainOf(cfg, c) == Bare(Lower(host))
  {
    DomainOfUrl(cfg.lib, scheme, host, tail);
    if '/' !in c.cleanUrl {
      NoSlashNoDomain(cfg.lib, c.cleanUrl);
    }
  }

  /** The candidate leads to this domain and nothing speaks against it. */
  ghost predicate Admitted(cfg: Settings, c: Candidate, domain: string) {
    !c.broken && DomainOf(cfg, c) == domain != "" && !Googles(domain) && !Belongs(domain, cfg.myDomains)
  }

  /** The ad is what the page says about its candidate, and a target exactly when a target
      text occurs in its domain. */
  predicate Shows(cfg: Settings, query: string, c: Candidate, ad: Value) {
    && ad.Dict? && AdDomain(ad) == DomainOf(cfg, c)
    && Field(ad, "query") == Text(query) && Field(ad, "title") == Text(c.title)
    && Field(ad, "display_url") == Text(c.displayUrl) && Field(ad, "clean_url") == Text(c.cleanUrl)
    && (Truthy(Field(ad, "is_target")) <==> exists t :: t in cfg.targets && Contains(AdDomain(ad), t))
  }

  lemma AdShows(cfg: Settings, query: string, c: Candidate)
    ensures Shows(cfg, query, c, AdOf(cfg, query, c))
  {
    var domain := DomainOf(cfg, c);
    RecordReads(query, c.title, c.displayUrl, c.cleanUrl, domain, exists t :: t in cfg.targets && Contains(domain, t));
  }

  lemma RecordReads(query: string, title: string, displayUrl: string, cleanUrl: string, domain: string, target: bool)
    ensures var ad := Record(query, title, displayUrl, cleanUrl, domain, target);
            && ad.Dict? && AdDomain(ad) == domain
            && Field(ad, "query") == Text(query) && Field(ad, "title") == Text(title)
            && Field(ad, "display_url") == Text(displayUrl) && Field(ad, "clean_url") == Text(cleanUrl)
            && Field(ad, "is_target") == Bool(target)
  {
    var m := Record(query, title, displayUrl, cleanUrl, domain, target).m;
    assert m["query"] == Text(query) && m["title"] == Text(title);
    assert m["display_url"] == Text(displayUrl) && m["clean_url"] == Text(cleanUrl) && m["domain"] == Text(domain);
  }

  /** The kept ads with this domain, by the marks. */
  lemma KeptDomain(domains: seq<string>, marks: seq<Mark>, domain: string)
    requires forall i :: 0 <= i < |marks| ==> GoodMark(domains, marks[i])
    ensures (exists ad :: ad in Kept(marks, |marks|) && AdDomain(ad) == domain)
            <==> exists i :: 0 <= i < |marks| && marks[i].verdict.Keepable? && marks[i].domain == domain
    ensures forall ad :: ad in Kept(marks, |marks|) && AdDomain(ad) == domain ==>
              exists i :: 0 <= i < |marks| && IsFirst(marks, i) && marks[i].domain == domain && ad == marks[i].ad
  {
    KeptIsForeign(domains, marks, |marks|);
    if i :| 0 <= i < |marks| && marks[i].verdict.Keepable? && marks[i].domain == domain {
      KeptCoversDomains(marks, i, |marks|);
    }
  }

  lemma MarksAdmit(cfg: Settings, query: string, raws: seq<Candidate>, domain: string)
    ensures var marks := Marks(ExaminerOf(cfg, query), raws);
            forall i :: 0 <= i < |raws| ==>
              (Admitted(cfg, raws[i], domain) <==> marks[i].verdict.Keepable? && marks[i].domain == domain)
  {
    forall i | 0 <= i < |raws|
      ensures Admitted(cfg, raws[i], domain)
              <==> Marks(ExaminerOf(cfg, query), raws)[i].verdict.Keepable? && Marks(ExaminerOf(cfg, query), raws)[i].domain == domain
    {
      VerdictIff(cfg, raws[i]);
    }
  }

  predicate Shown(ads: seq<Value>, domain: string) {
    exists ad :: ad in ads && AdDomain(ad) == domain
  }

  ghost predicate AdmittedOn(cfg: Settings, raws: seq<Candidate>, domain: string) {
    exists i :: 0 <= i < |raws| && Admitted(cfg, raws[i], domain)
  }

  /** A domain is shown on a page exactly when some candidate is admitted for it. */
  lemma PageHasDomainIff(cfg: Settings, query: string, raws: seq<Candidate>, domain: string)
    ensures Shown(Kept(Marks(ExaminerOf(cfg, query), raws), |raws|), domain) <==> AdmittedOn(cfg, raws, domain)
  {
    MarksAdmit(cfg, query, raws, domain);
    MarksAreGood(cfg, query, raws);
    KeptDomain(cfg.myDomains, Marks(ExaminerOf(cfg, query), raws), domain);
  }

  lemma MarksAreGood(cfg: Settings, query: string, raws: seq<Candidate>)
    ensures var marks := Marks(ExaminerOf(cfg, query), raws);
            forall i :: 0 <= i < |raws| ==> GoodMark(cfg.myDomains, marks[i])
  {
    forall i | 0 <= i < |raws| ensures GoodMark(cfg.myDomains, Marks(ExaminerOf(cfg, query), raws)[i]) {
      MarkIsGood(cfg, query, raws[i]);
    }
  }

  /** And its ad shows the first candidate admitted for it. */
  lemma FirstIsShown(cfg: Settings, query: string, raws: seq<Candidate>, ad: Value) returns (i: nat)
    requires ad in Kept(Marks(ExaminerOf(cfg, query), raws), |raws|)
    ensures i < |raws| && Admitted(cfg, raws[i], AdDomain(ad)) && Shows(cfg, query, raws[i], ad)
    ensures forall j :: 0 <= j < i ==> !Admitted(cfg, raws[j], AdDomain(ad))
  {
    var marks := Marks(ExaminerOf(cfg, query), raws);
    MarksAdmit(cfg, query, raws, AdDomain(ad));
    MarksAreGood(cfg, query, raws);
    KeptDomain(cfg.myDomains, marks, AdDomain(ad));
    i :| 0 <= i < |marks| && IsFirst(marks, i) && marks[i].domain == AdDomain(ad) && ad == marks[i].ad;
    AdShows(cfg, query, raws[i]);
  }

  /** The result of one parsed page. */
  ghost predicate Page(cfg: Settings, query: string, ads: seq<Value>) {
    exists raws: seq<Candidate> :: ads == Kept(Marks(ExaminerOf(cfg, query), raws), |raws|)
  }

  lemma PageIsForeign(cfg: Settings, query: string, ads: seq<Value>)
    requires Page(cfg, query, ads)
    ensures ForeignAds(cfg.myDomains, ads)
  {
    var raws: seq<Candidate> :| ads == Kept(Marks(ExaminerOf(cfg, query), raws), |raws|);
    var marks := Marks(ExaminerOf(cfg, query), raws);
    forall i | 0 <= i < |marks| ensures GoodMark(cfg.myDomains, marks[i]) {
      MarkIsGood(cfg, query, raws[i]);
    }
    KeptIsForeign(cfg.myDomains, marks, |raws|);
  }

  /** Every search of the world ends in the filtering loop under the run's own domains. */
  ghost predicate SearchesParse(w: World, cfg: Settings) {
    && cfg.myDomains == w.myDomains
    && (forall trace, q :: w.search(trace, q).Found? ==> Page(cfg, q, w.search(trace, q).ads))
    && (forall trace, q :: w.parseAds(trace, q).Found? ==> Page(cfg, q, w.parseAds(trace, q).ads))
    && (forall trace, vs :: multiset(w.shuffle(trace, vs)) == multiset(vs))
  }

  /** The filter is what keeps own-domain ads out of every context of every run. */
  lemma FilterProtectsEveryRun(w: World, cfg: Settings, seed: map<string, Value>, steps: seq<Value>, e: Event)
    requires SearchesParse(w, cfg)
    requires e in RunTrace(w, seed, steps)
    ensures OffOwnDomain(w, e) && Gated(w, e)
  {
    forall trace, q | w.search(trace, q).Found? ensures ForeignAds(w.myDomains, w.search(trace, q).ads) {
      PageIsForeign(cfg, q, w.search(trace, q).ads);
    }
    forall trace, q | w.parseAds(trace, q).Found? ensures ForeignAds(w.myDomains, w.parseAds(trace, q).ads) {
      PageIsForeign(cfg, q, w.parseAds(trace, q).ads);
    }
    NoActionOnOwnDomain(w, seed, steps);
  }

  /** The page came out of the filtering loop, or nothing was searched yet. */
  ghost predicate FromLoop(cfg: Settings, ads: seq<Value>) {
    ads == [] || exists query :: Page(cfg, query, ads)
  }

  ghost function ProvenanceLaw(cfg: Settings): AdLaw {
    AdLaw(ads => FromLoop(cfg, ads), ad => exists ads: seq<Value> :: FromLoop(cfg, ads) && ad in ads)
  }

  /** Where the ads of a run come from: at every handler call and every condition, the ads
      in scope are one result of the filtering loop and the ad at hand is an element of
      one; per-ad runners get such elements only. */
  lemma EveryAdWasParsed(w: World, cfg: Settings, seed: map<string, Value>, steps: seq<Value>, e: Event)
    requires SearchesParse(w, cfg) && e in RunTrace(w, seed, steps)
    ensures e.Act? || e.Judged? ==>
              && FromLoop(cfg, e.scope.ads)
              && (e.scope.ad == Null || exists ads: seq<Value> :: FromLoop(cfg, ads) && e.scope.ad in ads)
    ensures e.PerAd? ==> exists ads: seq<Value> :: FromLoop(cfg, ads) && e.ad in ads
  {
    RunIsLawful(w, ProvenanceLaw(cfg), seed, steps);
  }
}
