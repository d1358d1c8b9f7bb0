/** Variables of a flow: what `save_var` writes, paths and templates read. */
module FlowVariables {
  import opened Json
  import opened Strings
  import opened Templates
  import opened Flow
  import opened FlowSemantics

  lemma NameHasNoDot(n: string)
    requires VarName(n)
    ensures n != "" && forall i :: 0 <= i < |n| ==> n[i] != '.'
  {
    if !IsName(n, false) {
      var init := n[..|n| - 1];
      assert forall i :: 0 <= i < |init| ==> init[i] == n[i];
    }
  }

  /** Both spellings of a variable's path lead to it, from any scope. */
  lemma VariablePaths(w: World, n: string, sc: Scope, sh: Shared)
    requires VarName(n) && n !in RESERVED
    ensures Resolve(w, n, sc, sh) == Resolve(w, "var." + n, sc, sh) == Get(sh.vars, n, Null)
  {
    NameHasNoDot(n);
    NoStop(n, c => c == '.');
    var path := "var." + n;
    assert path == "var" + ['.'] + n;
    UntilStop("var", '.', n, c => c == '.');
    assert path[..3] == "var" && path[4..] == n;
    assert Split(path, c => c == '.') == ["var", n];
  }

  lemma OneHole(n: string, env: Env)
    requires IsName(n, true)
    ensures Subst("{" + n + "}", env, true) == if env(n).Some? then env(n).value else "{" + n + "}"
  {
    var s := "{" + n + "}";
    HoleIsFound(n, "", true);
    assert s + "" == s && s[|n| + 2..] == "";
    assert Scan(s, true) == [Hole(n)];
    UnscanFill([Hole(n)], env);
    assert Unscan(Fill([], env)) == "";
  }

  lemma HoleShows(w: World, n: string, v: Value, sc: Scope, sh: Shared)
    requires IsName(n, true) && Resolve(w, n, sc, sh) == v
    ensures Interpolate(Text("{" + n + "}"), EnvOf(w, sc, sh)) == Text(if v.Null? then "" else Str(w, v))
  {
    OneHole(n, EnvOf(w, sc, sh));
  }

  lemma LineFeedEndsName(n: string)
    requires IsName(n, true)
    ensures HoleName("{" + (n + "\n}"), true).None?
  {
    var s := "{" + (n + "\n}");
    NameLenAt(n, "\n}", true);
    assert s[1..] == n + "\n}" && s[1 + |n|] == '\n';
  }

  lemma UnmatchedBrace(rest: string, env: Env)
    requires HoleName("{" + rest, true).None? && forall i :: 0 <= i < |rest| ==> rest[i] != '{'
    ensures Subst("{" + rest, env, true) == "{" + rest
  {
    var s := "{" + rest;
    assert s[1..] == rest && Scan(s, true) == [Lit('{')] + Scan(rest, true);
    BracelessText(rest, env, true);
    UnscanFill(Scan(s, true), env);
  }

  /** No placeholder spells a name with a final line feed. */
  lemma NoHoleForLineFeed(n: string, env: Env)
    requires IsName(n, true)
    ensures Subst("{" + n + "\n}", env, true) == "{" + n + "\n}"
  {
    LineFeedEndsName(n);
    UnmatchedBrace(n + "\n}", env);
    assert "{" + n + "\n}" == "{" + (n + "\n}");
  }

  /** A variable that holds a value is read by either path; a template reads it exactly when
      its name has no line feed at the end. */
  lemma StoredReadsBack(w: World, n: string, v: Value, sc: Scope, sh: Shared)
    requires VarName(n) && n !in RESERVED && Get(sh.vars, n, Null) == v
    ensures Resolve(w, n, sc, sh) == v && Resolve(w, "var." + n, sc, sh) == v
    ensures Interpolate(Text("{" + n + "}"), EnvOf(w, sc, sh))
            == if IsName(n, false) then Text(if v.Null? then "" else Str(w, v)) else Text("{" + n + "}")
  {
    VariablePaths(w, n, sc, sh);
    if IsName(n, false) {
      HoleShows(w, n, v, sc, sh);
    } else {
      var init := n[..|n| - 1];
      assert n == init + "\n" && "{" + n + "}" == "{" + init + "\n}";
      NoHoleForLineFeed(init, EnvOf(w, sc, sh));
    }
  }

  lemma SavedIsStored(step: map<string, Value>, sc: Scope, sh: Shared)
    requires GoodVarName(Get(step, "name", Null))
    ensures Get(SaveVar(step, sc, sh).shared.vars, Get(step, "name", Null).s, Null) == Cap(Get(step, "value", Null))
  {
  }

  /** What `save_var` has stored under an accepted name is what later steps read, by either
      path, whatever scope they run in; templates read it exactly when the name has no line
      feed at the end. */
  lemma SavedVariableReadsBack(w: World, step: map<string, Value>, sc: Scope, sh: Shared, later: Scope)
    requires GoodVarName(Get(step, "name", Null))
    ensures var n, v := Get(step, "name", Null).s, Cap(Get(step, "value", Null));
            var sh' := SaveVar(step, sc, sh).shared;
            && Resolve(w, n, later, sh') == v && Resolve(w, "var." + n, later, sh') == v
            && Interpolate(Text("{" + n + "}"), EnvOf(w, later, sh'))
               == if IsName(n, false) then Text(if v.Null? then "" else Str(w, v)) else Text("{" + n + "}")
  {
    SavedIsStored(step, sc, sh);
    StoredReadsBack(w, Get(step, "name", Null).s, Cap(Get(step, "value", Null)), later, SaveVar(step, sc, sh).shared);
  }

  /** The reserved names are guarded without the line feed only. */
  lemma LineFeedPassesReserved(name: string)
    requires name in RESERVED
    ensures !GoodVarName(Text(name)) && GoodVarName(Text(name + "\n"))
  {
    assert (name + "\n")[..|name|] == name;
  }
}
