/** What each kind of condition asks, from its literal kind; and what the conditions say after
    the steps they are meant to follow. */
module FlowKinds {
  import opened Json
  import opened Strings
  import opened Templates
  import opened Flow
  import opened FlowSemantics
  import opened FlowLaws
  import opened FlowConditions
  import opened FlowSteps
  import opened FlowLeaves

  /** A condition of this literal kind, not negated. */
  predicate Asks(m: map<string, Value>, kind: string) {
    Get(m, "kind", Null) == Text(kind) && kind != "" && kind != "and" && kind != "or" && !Truthy(Get(m, "negate", Null))
  }

  function Seen(m: map<string, Value>, key: string, again: Env): Value {
    Interpolate(Get(m, key, Null), again)
  }

  lemma KindIsAsked(w: World, m: map<string, Value>, kind: string, again: Env, sc: Scope, sh: Shared)
    requires Asks(m, kind)
    ensures EvalWith(w, Dict(m), again, sc, sh)
            == EvalKind(w, kind, m, Seen(m, "value", again), Seen(m, "selector", again), sc, sh)
  {
    assert "kind" in m;
    BareOrNegated(w, m, again, sc, sh);
  }

  // ── the kinds ─────────────────────────────────────────────────

  lemma Constants(w: World, m: map<string, Value>, again: Env, sc: Scope, sh: Shared)
    ensures Asks(m, "always") ==> EvalWith(w, Dict(m), again, sc, sh) == Some(true)
    ensures Asks(m, "never") ==> EvalWith(w, Dict(m), again, sc, sh) == Some(false)
  {
    if Asks(m, "always") {
      KindIsAsked(w, m, "always", again, sc, sh);
    }
    if Asks(m, "never") {
      KindIsAsked(w, m, "never", again, sc, sh);
    }
  }

  /** Whether there are ads. */
  lemma AdsFound(w: World, m: map<string, Value>, again: Env, sc: Scope, sh: Shared)
    ensures Asks(m, "ads_found") ==> EvalWith(w, Dict(m), again, sc, sh) == Some(|sc.ads| > 0)
    ensures Asks(m, "no_ads") ==> EvalWith(w, Dict(m), again, sc, sh) == Some(|sc.ads| == 0)
  {
    if Asks(m, "ads_found") {
      KindIsAsked(w, m, "ads_found", again, sc, sh);
    }
    if Asks(m, "no_ads") {
      KindIsAsked(w, m, "no_ads", again, sc, sh);
    }
  }

  /** Whether there are at least so many, one by default. */
  lemma AdsCounted(w: World, m: map<string, Value>, n: int, again: Env, sc: Scope, sh: Shared)
    requires Asks(m, "ads_count_gte") && (if "value" in m then m["value"] == Num(n as real) else n == 1)
    ensures EvalWith(w, Dict(m), again, sc, sh) == Some(|sc.ads| >= n)
  {
    KindIsAsked(w, m, "ads_count_gte", again, sc, sh);
    assert Int(w, Num(n as real)) == Some(n);
  }

  /** Whether the last page showed a captcha. */
  lemma CaptchaFlagged(w: World, m: map<string, Value>, again: Env, sc: Scope, sh: Shared)
    requires Asks(m, "captcha_present")
    ensures EvalWith(w, Dict(m), again, sc, sh) == Some("captcha_present" in sh.flags && sh.flags["captcha_present"])
  {
    KindIsAsked(w, m, "captcha_present", again, sc, sh);
  }

  /** Whether the URL of the page contains the text, which is not empty. */
  lemma UrlContains(w: World, m: map<string, Value>, needle: string, again: Env, sc: Scope, sh: Shared)
    requires Asks(m, "url_contains") && Literal(m, "value", needle)
    ensures EvalWith(w, Dict(m), again, sc, sh)
            == Some(needle != "" && exists a, b :: 0 <= a <= b <= |UrlAt(w, sh)| && UrlAt(w, sh)[a..b] == needle)
  {
    KindIsAsked(w, m, "url_contains", again, sc, sh);
    LiteralText(m, "value", needle, again);
    ContainsIff(UrlAt(w, sh), needle);
  }

  function UrlAt(w: World, sh: Shared): string {
    if w.hasDriver then w.currentUrl(sh.trace) else ""
  }

  lemma LiteralText(m: map<string, Value>, key: string, text: string, again: Env)
    requires Literal(m, key, text)
    ensures Seen(m, key, again) == if key in m then Text(text) else Null
  {
    if key in m {
      BracelessText(text, again, true);
    }
  }

  lemma ContainsIff(s: string, needle: string)
    ensures Contains(s, needle) <==> exists a, b :: 0 <= a <= b <= |s| && s[a..b] == needle
  {
    if Contains(s, needle) {
      var a :| 0 <= a <= |s| && needle <= s[a..];
      assert s[a..a + |needle|] == needle;
    }
    if a, b :| 0 <= a <= b <= |s| && s[a..b] == needle {
      assert needle <= s[a..];
    }
  }

  /** Whether the page has the element. */
  lemma ElementExists(w: World, m: map<string, Value>, selector: string, again: Env, sc: Scope, sh: Shared)
    requires Asks(m, "element_exists") && Literal(m, "selector", selector) && "timeout" !in m
    ensures EvalWith(w, Dict(m), again, sc, sh)
            == Some(w.hasDriver && selector != "" && w.elementExists(sh.trace, Text(selector)))
  {
    KindIsAsked(w, m, "element_exists", again, sc, sh);
    LiteralText(m, "selector", selector, again);
  }

  /** The variable, or other path, that the condition is about. */
  predicate About(w: World, m: map<string, Value>, path: string, v: Value, sc: Scope, sh: Shared) {
    Get(m, "var", Null) == Text(path) && path != "" && Resolve(w, path, sc, sh) == v
  }

  lemma PathIsRead(w: World, m: map<string, Value>, path: string, v: Value, sc: Scope, sh: Shared)
    requires About(w, m, path, v, sc, sh)
    ensures PathArg(w, m, sc, sh) == Some(v)
  {
  }

  /** Whether a variable is falsy. */
  lemma VarEmpty(w: World, m: map<string, Value>, path: string, v: Value, again: Env, sc: Scope, sh: Shared)
    requires Asks(m, "var_empty") && About(w, m, path, v, sc, sh)
    ensures EvalWith(w, Dict(m), again, sc, sh) == Some(!Truthy(v))
  {
    KindIsAsked(w, m, "var_empty", again, sc, sh);
    PathIsRead(w, m, path, v, sc, sh);
    EmptyKind(w, m, v, Seen(m, "value", again), Seen(m, "selector", again), sc, sh);
  }

  lemma EmptyKind(w: World, m: map<string, Value>, v: Value, value: Value, selector: Value, sc: Scope, sh: Shared)
    requires PathArg(w, m, sc, sh) == Some(v)
    ensures EvalKind(w, "var_empty", m, value, selector, sc, sh) == Some(!Truthy(v))
  {
  }

  /** Whether it reads as this text. */
  lemma VarEquals(w: World, m: map<string, Value>, path: string, v: Value, text: string, again: Env, sc: Scope, sh: Shared)
    requires Asks(m, "var_equals") && About(w, m, path, v, sc, sh) && "value" in m && Literal(m, "value", text)
    ensures EvalWith(w, Dict(m), again, sc, sh) == Some(Str(w, v) == text)
  {
    KindIsAsked(w, m, "var_equals", again, sc, sh);
    LiteralText(m, "value", text, again);
    PathIsRead(w, m, path, v, sc, sh);
    EqualsKind(w, m, v, text, Seen(m, "selector", again), sc, sh);
  }

  lemma EqualsKind(w: World, m: map<string, Value>, v: Value, text: string, selector: Value, sc: Scope, sh: Shared)
    requires PathArg(w, m, sc, sh) == Some(v)
    ensures EvalKind(w, "var_equals", m, Text(text), selector, sc, sh) == Some(Str(w, v) == text)
  {
  }

  /** A variable that is not there equals the text `None`. */
  lemma MissingEqualsNone(w: World, m: map<string, Value>, path: string, again: Env, sc: Scope, sh: Shared)
    requires Asks(m, "var_equals") && About(w, m, path, Null, sc, sh) && Get(m, "value", Null) == Text("None")
    ensures EvalWith(w, Dict(m), again, sc, sh) == Some(true)
  {
    assert NoBrace("None");
    VarEquals(w, m, path, Null, "None", again, sc, sh);
  }

  /** Whether it contains the text, which may be empty here. */
  lemma VarContains(w: World, m: map<string, Value>, path: string, v: string, text: string, again: Env, sc: Scope, sh: Shared)
    requires Asks(m, "var_contains") && About(w, m, path, Text(v), sc, sh) && Literal(m, "value", text)
    ensures EvalWith(w, Dict(m), again, sc, sh) == Some(exists a, b :: 0 <= a <= b <= |v| && v[a..b] == text)
  {
    KindIsAsked(w, m, "var_contains", again, sc, sh);
    LiteralText(m, "value", text, again);
    PathIsRead(w, m, path, Text(v), sc, sh);
    ContainsKind(w, m, v, text, Seen(m, "value", again), Seen(m, "selector", again), sc, sh);
    ContainsIff(v, text);
  }

  lemma ContainsKind(w: World, m: map<string, Value>, v: string, text: string, value: Value, selector: Value, sc: Scope, sh: Shared)
    requires PathArg(w, m, sc, sh) == Some(Text(v)) && TextOrNothing(value, text)
    ensures EvalKind(w, "var_contains", m, value, selector, sc, sh) == Some(Contains(v, text))
  {
    assert TextOr(w, Text(v), "") == v && TextOr(w, value, "") == text;
  }

  /** Whether the pattern, which is not empty, is found in it. */
  lemma VarMatches(w: World, m: map<string, Value>, path: string, v: string, pattern: string, again: Env, sc: Scope, sh: Shared)
    requires Asks(m, "var_matches") && About(w, m, path, Text(v), sc, sh) && Literal(m, "value", pattern)
    ensures EvalWith(w, Dict(m), again, sc, sh) == Some(pattern != "" && w.matches(pattern, v))
  {
    KindIsAsked(w, m, "var_matches", again, sc, sh);
    LiteralText(m, "value", pattern, again);
    PathIsRead(w, m, path, Text(v), sc, sh);
    MatchesKind(w, m, v, pattern, Seen(m, "value", again), Seen(m, "selector", again), sc, sh);
  }

  lemma MatchesKind(w: World, m: map<string, Value>, v: string, pattern: string, value: Value, selector: Value, sc: Scope, sh: Shared)
    requires PathArg(w, m, sc, sh) == Some(Text(v)) && TextOrNothing(value, pattern)
    ensures EvalKind(w, "var_matches", m, value, selector, sc, sh) == Some(pattern != "" && w.matches(pattern, v))
  {
    assert TextOr(w, Text(v), "") == v && TextOr(w, value, "") == pattern;
  }

  /** A condition about no path asks about nothing: it is empty, and contains the empty text
      only. One about something that is no text raises. */
  lemma PathMustBeText(w: World, m: map<string, Value>, again: Env, sc: Scope, sh: Shared)
    requires Asks(m, "var_empty")
    ensures !Truthy(Get(m, "var", Null)) ==> EvalWith(w, Dict(m), again, sc, sh) == Some(true)
    ensures Truthy(Get(m, "var", Null)) && !Get(m, "var", Null).Text? ==> EvalWith(w, Dict(m), again, sc, sh) == None
  {
    KindIsAsked(w, m, "var_empty", again, sc, sh);
  }

  /** Target and own ads; AdClasses and FoldKeepsVerdict relate the classes. */
  lemma AdIsTargetOrMine(w: World, m: map<string, Value>, again: Env, sc: Scope, sh: Shared)
    ensures Asks(m, "ad_is_target") ==> EvalWith(w, Dict(m), again, sc, sh) == Some(Truthy(Field(sc.ad, "is_target")))
    ensures Asks(m, "ad_is_mine") ==>
              EvalWith(w, Dict(m), again, sc, sh)
              == Some(exists i :: 0 <= i < |w.myDomains| && Covers(Lower(w.myDomains[i]), Lower(AdDomain(sc.ad))))
  {
    if Asks(m, "ad_is_target") {
      KindIsAsked(w, m, "ad_is_target", again, sc, sh);
    }
    if Asks(m, "ad_is_mine") {
      KindIsAsked(w, m, "ad_is_mine", again, sc, sh);
      UnderCovers(Lower(AdDomain(sc.ad)), w.myDomains);
    }
  }

  /** A kind nobody knows never holds. */
  lemma UnknownNeverHolds(w: World, m: map<string, Value>, kind: string, again: Env, sc: Scope, sh: Shared)
    requires Asks(m, kind) && Unknown(kind)
    ensures EvalWith(w, Dict(m), again, sc, sh) == Some(false)
  {
    KindIsAsked(w, m, kind, again, sc, sh);
  }

  predicate Unknown(kind: string) {
    && kind != "always" && kind != "never" && kind != "ad_is_competitor" && kind != "ad_is_external" && kind != "ad_is_target"
    && kind != "ad_is_mine" && kind != "ads_found" && kind != "no_ads" && kind != "ads_count_gte" && kind != "captcha_present"
    && kind != "url_contains" && kind != "element_exists" && kind != "var_equals" && kind != "var_contains"
    && kind != "var_matches" && kind != "var_empty"
  }

  // ── after the steps they follow ───────────────────────────────

  /** After a page of ads has been caught, `ads_found` holds exactly if the page had ads, and
      `captcha_present` exactly if the browser shows a captcha now. */
  lemma CaughtPageIsSeen(w: World, m: map<string, Value>, query: string, found: map<string, Value>, captcha: map<string, Value>,
                         again: Env, sc: Scope, sh: Shared)
    requires Plain(w, m, "catch_ads") && Literal(m, "query", query)
    requires Asks(found, "ads_found") && Asks(captcha, "captcha_present")
    requires RunStep(w, Dict(m), sc, sh).out.Normal?
    ensures var q := if query == "" then sc.query else query;
            var r := RunStep(w, Dict(m), sc, sh);
            && w.parseAds(sh.trace, q).Found?
            && EvalWith(w, Dict(found), again, r.scope, r.shared) == Some(w.parseAds(sh.trace, q).ads != [])
            && EvalWith(w, Dict(captcha), again, r.scope, r.shared) == Some(w.hasDriver && w.captcha(sh.trace + [Caught(q)]))
  {
    CatchStep(w, m, query, sc, sh);
    var q := if query == "" then sc.query else query;
    if w.parseAds(sh.trace, q).Found? {
      PageIsSeen(w, w.parseAds(sh.trace, q).ads, found, captcha, again, sc, Log(sh, Caught(q)));
    }
  }

  lemma PageIsSeen(w: World, ads: seq<Value>, found: map<string, Value>, captcha: map<string, Value>, again: Env, sc: Scope, sh: Shared)
    requires Asks(found, "ads_found") && Asks(captcha, "captcha_present")
    ensures var r := WithPage(w, ads, sc, sh);
            && EvalWith(w, Dict(found), again, r.scope, r.shared) == Some(ads != [])
            && EvalWith(w, Dict(captcha), again, r.scope, r.shared) == Some(w.hasDriver && w.captcha(sh.trace))
  {
    var r := WithPage(w, ads, sc, sh);
    AdsFound(w, found, again, r.scope, r.shared);
    CaptchaFlagged(w, captcha, again, r.scope, r.shared);
  }
}
