/** The two readings of the own-domain settings: the parser's filter lowers them, the gate of
    the actions lowers and strips them. */
module OwnDomains {
  import opened Json
  import opened Strings
  import opened Flow
  import opened FlowSemantics
  import opened FlowLaws

  predicate Trimmed(s: string) {
    s == "" || (!IsSpace(s[0]) && !IsSpace(s[|s| - 1]))
  }

  predicate Lowered(s: string) {
    forall i :: 0 <= i < |s| ==> LowerChar(s[i]) == s[i]
  }

  lemma StripTrimmed(s: string)
    requires Trimmed(s)
    ensures Strip(s) == s && Trimmed(Lower(s))
  {
    if s != "" {
      assert Lower(s)[0] == LowerChar(s[0]) && Lower(s)[|s| - 1] == LowerChar(s[|s| - 1]);
    }
  }

  lemma {:induction false} LeftStripped(s: string)
    ensures |StripLeft(s)| <= |s| && StripLeft(s) == s[|s| - |StripLeft(s)|..]
    ensures StripLeft(s) != "" ==> !IsSpace(StripLeft(s)[0])
    decreases |s|
  {
    if s != "" && IsSpace(s[0]) {
      LeftStripped(s[1..]);
    }
  }

  lemma {:induction false} RightStripped(s: string)
    ensures StripRight(s) <= s
    ensures StripRight(s) != "" ==> !IsSpace(StripRight(s)[|StripRight(s)| - 1])
    decreases |s|
  {
    if s != "" && IsSpace(s[|s| - 1]) {
      RightStripped(s[..|s| - 1]);
    }
  }

  lemma LoweredIsFixed(s: string)
    requires Lowered(s)
    ensures Lower(s) == s
  {
  }

  /** A lowered and stripped setting stays what it is. */
  lemma SettingIsSettled(d: string)
    ensures var t := Strip(Lower(d)); Trimmed(t) && Lower(t) == t && Strip(t) == t
  {
    var left := StripLeft(Lower(d));
    LeftStripped(Lower(d));
    RightStripped(left);
    assert Lowered(left);
    LoweredIsFixed(Strip(Lower(d)));
    StripTrimmed(Strip(Lower(d)));
  }

  /** Blanks behind a trimmed text are stripped. */
  lemma {:induction false} StripBlanks(t: string, n: nat)
    requires Trimmed(t) && t != ""
    ensures Strip(t + Repeat(' ', n)) == t
  {
    var s := t + Repeat(' ', n);
    assert s[0] == t[0];
    if n == 0 {
      assert s == t;
      StripTrimmed(t);
    } else {
      assert s[..|s| - 1] == t + Repeat(' ', n - 1);
      StripBlanks(t, n - 1);
    }
  }

  function Repeat(c: char, n: nat): (r: string)
    ensures |r| == n && forall i :: 0 <= i < n ==> r[i] == c
  {
    seq(n, _ => c)
  }

  function Longest(ss: seq<string>): (n: nat)
    ensures forall s :: s in ss ==> |s| <= n
  {
    if ss == [] then 0
    else
      var rest := Longest(ss[1..]);
      assert forall s :: s in ss ==> s == ss[0] || s in ss[1..];
      if |ss[0]| > rest then |ss[0]| else rest
  }

  /** What is under a domain is under every domain that one is under. */
  lemma UnderThrough(x: string, t: string, domains: seq<string>)
    requires (x == t || EndsWith(x, "." + t)) && Under(t, domains)
    ensures Under(x, domains)
  {
    var l :| l in domains && (t == l || EndsWith(t, "." + l));
    if x != t && t != l {
      assert x[|x| - |t|..] == t by {
        assert ("." + t)[1..] == t;
      }
      assert x[|x| - |l| - 1..] == t[|t| - |l| - 1..];
    }
  }

  // ── steps for own ads only ────────────────────────────────────

  /** Every setting, once stripped, is under one of the settings as they are. */
  predicate StripsHome(domains: seq<string>) {
    forall d :: d in domains ==> Under(Strip(Lower(d)), LowerAll(domains))
  }

  /** The gate skips a step for own ads only on every ad that passes the filter and whose
      domain has no blanks around it. */
  ghost predicate OwnOnlyIsDead(domains: seq<string>) {
    forall step, ad :: OwnOnly(step) && Foreign(domains, ad) && Trimmed(AdDomain(ad)) ==> GateSkips(domains, step, ad)
  }

  /** The same on every ad that passes the filter. */
  ghost predicate OwnOnlyIsDeadOnAll(domains: seq<string>) {
    forall step, ad :: OwnOnly(step) && Foreign(domains, ad) ==> GateSkips(domains, step, ad)
  }

  predicate OwnOnly(step: map<string, Value>) {
    Truthy(Get(step, "only_on_my_domain", Null))
  }

  function Flagged(): (step: map<string, Value>)
    ensures OwnOnly(step) && forall k :: k in step ==> k == "only_on_my_domain"
  {
    map["only_on_my_domain" := Bool(true)]
  }

  /** The ad's domain, stripped, is one of the stripped settings or a subdomain of one. */
  lemma MineIff(domains: seq<string>, ad: Value)
    ensures var x := Strip(Lower(AdDomain(ad)));
            Mine(domains, ad) <==> x != "" && exists i :: 0 <= i < |domains| && Covers(Strip(Lower(domains[i])), x)
  {
    var x := Strip(Lower(AdDomain(ad)));
    if Under(x, LowerStripAll(domains)) {
      var d :| d in LowerStripAll(domains) && (x == d || EndsWith(x, "." + d));
      var i :| 0 <= i < |domains| && LowerStripAll(domains)[i] == d;
      CoversIff(d, x);
    }
    if i :| 0 <= i < |domains| && Covers(Strip(Lower(domains[i])), x) {
      CoversIff(Strip(Lower(domains[i])), x);
      assert LowerStripAll(domains)[i] in LowerStripAll(domains);
    }
  }

  /** The gate lets a step through exactly without an ad, or when none of its four flags
      speaks against the ad. */
  lemma GateOpensIff(domains: seq<string>, step: map<string, Value>, ad: Value)
    ensures !GateSkips(domains, step, ad) <==>
              !Truthy(ad)
              || ((Truthy(Get(step, "skip_on_my_domain", Null)) ==> !Mine(domains, ad))
                  && (Truthy(Get(step, "only_on_my_domain", Null)) ==> Mine(domains, ad))
                  && (Truthy(Get(step, "skip_on_target", Null)) ==> !Truthy(Field(ad, "is_target")))
                  && (Truthy(Get(step, "only_on_target", Null)) ==> Truthy(Field(ad, "is_target"))))
  {
  }

  lemma FlaggedSkips(domains: seq<string>, ad: Value)
    requires GateSkips(domains, Flagged(), ad)
    ensures !Mine(domains, ad)
  {
  }

  function AdOf(domain: string): (ad: Value)
    ensures ad.Dict? && AdDomain(ad) == domain
  {
    Dict(map["domain" := Text(domain)])
  }

  lemma ForeignIsNotMine(domains: seq<string>, ad: Value)
    requires StripsHome(domains) && Foreign(domains, ad) && Trimmed(AdDomain(ad))
    ensures !Mine(domains, ad)
  {
    var x := Lower(AdDomain(ad));
    StripTrimmed(AdDomain(ad));
    StripTrimmed(x);
    if Under(x, LowerStripAll(domains)) {
      var t :| t in LowerStripAll(domains) && (x == t || EndsWith(x, "." + t));
      var i :| 0 <= i < |domains| && t == Strip(Lower(domains[i]));
      UnderThrough(x, t, LowerAll(domains));
    }
  }

  /** A domain the gate takes for an own one, and the filter for a foreign one unless the
      setting strips home. */
  function Probe(t: string, domains: seq<string>): string {
    if t != "" then t else Repeat('x', Longest(LowerAll(domains)) + 1) + "."
  }

  lemma ProbeEnds(t: string, domains: seq<string>)
    requires Trimmed(t) && Lower(t) == t
    ensures var x := Probe(t, domains);
            Trimmed(x) && x != "" && Lower(x) == x && (x == t || EndsWith(x, "." + t))
  {
    if t == "" {
      LoweredIsFixed(Probe(t, domains));
    }
  }

  lemma ProbeIsMine(d: string, domains: seq<string>)
    requires d in domains
    ensures var x := Probe(Strip(Lower(d)), domains);
            Trimmed(x) && x != "" && Lower(x) == x && Mine(domains, AdOf(x))
  {
    var x := Probe(Strip(Lower(d)), domains);
    SettingIsSettled(d);
    ProbeEnds(Strip(Lower(d)), domains);
    StripTrimmed(x);
    var i :| 0 <= i < |domains| && domains[i] == d;
    assert LowerStripAll(domains)[i] == Strip(Lower(d)) && Strip(Lower(d)) in LowerStripAll(domains);
    assert Under(x, LowerStripAll(domains));
    assert Strip(Lower(AdDomain(AdOf(x)))) == x;
  }

  lemma DotBefore(x: string, l: string)
    requires EndsWith(x, "." + l)
    ensures |l| < |x| && x[|x| - |l| - 1] == '.'
  {
    assert x[|x| - |l| - 1..][0] == '.';
  }

  lemma ProbeIsForeign(t: string, domains: seq<string>)
    requires !Under(t, LowerAll(domains))
    ensures !Under(Probe(t, domains), LowerAll(domains))
  {
    var x, ds := Probe(t, domains), LowerAll(domains);
    if t == "" && Under(x, ds) {
      var l :| l in ds && (x == l || EndsWith(x, "." + l));
      DotBefore(x, l);
    }
  }

  /** A step for own ads only is dead on all parsed ads exactly when every setting strips
      home, as trimmed settings do. */
  lemma OwnOnlyIsDeadIff(domains: seq<string>)
    ensures OwnOnlyIsDead(domains) <==> StripsHome(domains)
  {
    if StripsHome(domains) {
      forall step, ad | OwnOnly(step) && Foreign(domains, ad) && Trimmed(AdDomain(ad)) ensures GateSkips(domains, step, ad) {
        ForeignIsNotMine(domains, ad);
      }
    } else {
      var d :| d in domains && !Under(Strip(Lower(d)), LowerAll(domains));
      var x := Probe(Strip(Lower(d)), domains);
      ProbeIsMine(d, domains);
      ProbeIsForeign(Strip(Lower(d)), domains);
      assert Foreign(domains, AdOf(x));
      if GateSkips(domains, Flagged(), AdOf(x)) {
        FlaggedSkips(domains, AdOf(x));
      }
    }
  }

  lemma TrimmedStripHome(domains: seq<string>)
    requires forall d :: d in domains ==> Trimmed(d)
    ensures StripsHome(domains)
  {
    forall d | d in domains ensures Under(Strip(Lower(d)), LowerAll(domains)) {
      StripTrimmed(d);
      StripTrimmed(Lower(d));
      var i :| 0 <= i < |domains| && domains[i] == d;
      assert LowerAll(domains)[i] == Strip(Lower(d)) && Strip(Lower(d)) in LowerAll(domains);
    }
  }

  /** An ad domain with blanks behind it is another text for the filter and the same one for
      the gate: on all ad domains the step is dead only without any settings. */
  lemma OwnOnlyIsDeadOnAllIff(domains: seq<string>)
    ensures OwnOnlyIsDeadOnAll(domains) <==> domains == []
  {
    if domains != [] {
      var d := domains[0];
      var t, n := Probe(Strip(Lower(d)), domains), Longest(LowerAll(domains)) + 1;
      var x := t + Repeat(' ', n);
      ProbeIsMine(d, domains);
      StripBlanks(t, n);
      assert Lowered(x);
      LoweredIsFixed(x);
      BlanksAreForeign(t, n, domains);
      assert Foreign(domains, AdOf(x)) && Mine(domains, AdOf(x));
      if GateSkips(domains, Flagged(), AdOf(x)) {
        FlaggedSkips(domains, AdOf(x));
      }
    }
  }

  lemma BlanksAreForeign(t: string, n: nat, domains: seq<string>)
    requires t != "" && n > Longest(LowerAll(domains))
    ensures !Under(t + Repeat(' ', n), LowerAll(domains))
  {
    var x, ds := t + Repeat(' ', n), LowerAll(domains);
    if Under(x, ds) {
      var l :| l in ds && (x == l || EndsWith(x, "." + l));
      DotBefore(x, l);
    }
  }

  /** Where the settings strip home, no run over parsed ads carries out a step for own ads
      only on an ad whose domain has no blanks around it. */
  lemma OwnOnlyStepsNeverRun(w: World, seed: map<string, Value>, steps: seq<Value>, e: Event)
    requires Parsed(w, ForeignLaw(w.myDomains)) && StripsHome(w.myDomains)
    requires e in RunTrace(w, seed, steps)
    requires e.Act? && e.kind in w.handlers.actions && e.kind !in w.handlers.externals
    requires e.scope.ad != Null && Trimmed(AdDomain(e.scope.ad))
    ensures e.step.Dict? && !OwnOnly(e.step.m)
  {
    NoActionOnOwnDomain(w, seed, steps);
    ForeignIsNotMine(w.myDomains, e.scope.ad);
  }
}
