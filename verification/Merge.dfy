/** The Preferences merge of runtime.py: how the settings a launch wants are laid over the
    file Chrome left behind. */
module Merge {
  import opened Json

  /** `new` laid over `prior`. Anything that is not a dict on both sides is replaced. */
  function Merged(prior: Value, update: Value): Value
    decreases update
  {
    if prior.Dict? && update.Dict? then
      Dict(map k | k in prior.m.Keys + update.m.Keys ::
             if k !in update.m then prior.m[k]
             else if k !in prior.m then update.m[k]
             else Merged(prior.m[k], update.m[k]))
    else update
  }

  /** `deep_merge(d1, d2)`: updates `d1` item by item, whatever the order of the items. */
  method DeepMerge(prior: map<string, Value>, update: map<string, Value>) returns (d1: map<string, Value>)
    ensures Dict(d1) == Merged(Dict(prior), Dict(update))
    decreases Dict(update)
  {
    d1 := prior;
    var todo := update.Keys;
    while todo != {}
      invariant todo <= update.Keys
      invariant d1.Keys == prior.Keys + (update.Keys - todo)
      invariant forall k :: k in todo && k in prior ==> d1[k] == prior[k]
      invariant forall k :: k in prior && k !in update ==> d1[k] == prior[k]
      invariant forall k :: k in update && k !in todo ==> k in d1 && d1[k] == Merged(Dict(prior), Dict(update)).m[k]
      decreases todo
    {
      var k :| k in todo;
      var v := update[k];
      if k in d1 && d1[k].Dict? && v.Dict? {
        var nested := DeepMerge(d1[k].m, v.m);
        d1 := d1[k := Dict(nested)];
      } else {
        d1 := d1[k := v];
      }
      todo := todo - {k};
    }
  }

  /** The settings written for a launch: an unreadable file or one that holds no object is
      thrown away. */
  method LaunchPrefs(existing: Option<Value>, update: map<string, Value>) returns (prefs: Value)
    ensures prefs == match existing case None => Dict(update) case Some(v) => Merged(v, Dict(update))
  {
    prefs := Dict(update);
    if existing.Some? && existing.value.Dict? {
      var d1 := DeepMerge(existing.value.m, update);
      prefs := Dict(d1);
    }
  }

  // ── what a reader of the merged tree sees ─────────────────────

  /** `update` has something to say at this path: it reads there, or a value of its own that
      is no dict stands above it. */
  predicate Touches(update: Value, path: seq<string>) {
    path == [] || !update.Dict? || (path[0] in update.m && Touches(update.m[path[0]], path[1..]))
  }

  /** Every path of the merged tree, from the two trees: both sides' subtrees merged, the new
      side's alone, nothing below a new leaf, or the old side untouched. */
  lemma {:induction false} ReadMerged(prior: Value, update: Value, path: seq<string>)
    ensures Read(Merged(prior, update), path)
            == if Read(update, path).Some? then
                 if Read(prior, path).Some? then Some(Merged(Read(prior, path).value, Read(update, path).value))
                 else Read(update, path)
               else if Touches(update, path) then None
               else Read(prior, path)
    decreases path
  {
    if path != [] && prior.Dict? && update.Dict? {
      var k := path[0];
      if k in prior.m && k in update.m {
        ReadMerged(prior.m[k], update.m[k], path[1..]);
      }
    }
  }

  /** Right bias: every leaf of the new tree reads back. */
  lemma NewLeavesRead(prior: Value, update: Value, path: seq<string>)
    requires Read(update, path).Some? && !Read(update, path).value.Dict?
    ensures Read(Merged(prior, update), path) == Read(update, path)
  {
    ReadMerged(prior, update, path);
  }

  /** Old paths the new tree does not touch keep their values. */
  lemma UntouchedPathsKept(prior: Value, update: Value, path: seq<string>)
    requires !Touches(update, path)
    ensures Read(Merged(prior, update), path) == Read(prior, path)
  {
    ReadMerged(prior, update, path);
    if Read(update, path).Some? {
      ReadIsTouched(update, path);
    }
  }

  lemma {:induction false} ReadIsTouched(update: Value, path: seq<string>)
    requires Read(update, path).Some?
    ensures Touches(update, path)
    decreases path
  {
    if path != [] {
      ReadIsTouched(update.m[path[0]], path[1..]);
    }
  }

  // ── repeated launches ─────────────────────────────────────────

  /** The new tree already lies over this one: nothing of it would survive the merge but
      what the new tree repeats. */
  predicate Covers(update: Value, prior: Value)
    decreases update
  {
    prior.Dict? && update.Dict? ==>
      prior.m.Keys <= update.m.Keys && forall k :: k in prior.m && k in update.m ==> Covers(update.m[k], prior.m[k])
  }

  /** The merge is the new tree exactly when the new tree covers the old one. */
  lemma {:induction false} MergedIsUpdateIff(prior: Value, update: Value)
    ensures Merged(prior, update) == update <==> Covers(update, prior)
    decreases update
  {
    if prior.Dict? && update.Dict? {
      forall k | k in prior.m && k in update.m
        ensures Merged(prior.m[k], update.m[k]) == update.m[k] <==> Covers(update.m[k], prior.m[k])
      {
        MergedIsUpdateIff(prior.m[k], update.m[k]);
      }
      var all := Merged(prior, update).m;
      if Covers(update, prior) {
        assert all.Keys == update.m.Keys;
        assert all == update.m;
      }
      if Merged(prior, update) == update {
        assert all.Keys == update.m.Keys;
        forall k | k in prior.m && k in update.m ensures Covers(update.m[k], prior.m[k]) {
          assert all[k] == update.m[k];
        }
      }
    }
  }

  /** A second launch with the same settings changes nothing. */
  lemma {:induction false} MergeIsIdempotent(prior: Value, update: Value)
    ensures Merged(Merged(prior, update), update) == Merged(prior, update)
    decreases update
  {
    if prior.Dict? && update.Dict? {
      var once := Merged(prior, update).m;
      var twice := Merged(Merged(prior, update), update).m;
      assert once.Keys == twice.Keys;
      forall k | k in once ensures once[k] == twice[k] {
        if k in update.m && k in prior.m {
          MergeIsIdempotent(prior.m[k], update.m[k]);
        } else if k in update.m {
          SelfMerge(update.m[k]);
        }
      }
      assert once == twice;
    } else {
      SelfMerge(update);
    }
  }

  lemma {:induction false} SelfMerge(v: Value)
    ensures Merged(v, v) == v
    decreases v
  {
    if v.Dict? {
      forall k | k in v.m ensures Merged(v.m[k], v.m[k]) == v.m[k] {
        SelfMerge(v.m[k]);
      }
      assert Merged(v, v).m == v.m;
    }
  }

  // ── associativity ─────────────────────────────────────────────

  /** Nowhere do a dict, then something else, then a dict that does not cover the first lie
      over one another. */
  predicate Regroups(a: Value, b: Value, c: Value)
    decreases c
  {
    a.Dict? && c.Dict? ==>
      if b.Dict? then
        forall k :: k in a.m && k in b.m && k in c.m ==> Regroups(a.m[k], b.m[k], c.m[k])
      else Covers(c, a)
  }

  /** Three merges may be grouped either way exactly under that condition. */
  lemma {:induction false} AssociativeIff(a: Value, b: Value, c: Value)
    ensures Merged(Merged(a, b), c) == Merged(a, Merged(b, c)) <==> Regroups(a, b, c)
    decreases c
  {
    if a.Dict? && c.Dict? {
      if b.Dict? {
        forall k | k in a.m && k in b.m && k in c.m
          ensures Merged(Merged(a.m[k], b.m[k]), c.m[k]) == Merged(a.m[k], Merged(b.m[k], c.m[k]))
                  <==> Regroups(a.m[k], b.m[k], c.m[k])
        {
          AssociativeIff(a.m[k], b.m[k], c.m[k]);
        }
        AssociativeByKey(a, b, c);
      } else {
        MergedIsUpdateIff(a, c);
      }
    }
  }

  /** One key of a merge; no value where neither side has the key. */
  function At(prior: Option<Value>, update: Option<Value>): Option<Value> {
    if update.None? then prior
    else if prior.None? then update
    else Some(Merged(prior.value, update.value))
  }

  function Entry(v: Value, k: string): Option<Value>
    requires v.Dict?
  {
    if k in v.m then Some(v.m[k]) else None
  }

  lemma MergedEntry(prior: Value, update: Value, k: string)
    requires prior.Dict? && update.Dict?
    ensures Merged(prior, update).Dict?
    ensures Entry(Merged(prior, update), k) == At(Entry(prior, k), Entry(update, k))
  {
  }

  lemma SameEntries(v: Value, w: Value)
    requires v.Dict? && w.Dict?
    ensures v == w <==> forall k :: Entry(v, k) == Entry(w, k)
  {
    if forall k :: Entry(v, k) == Entry(w, k) {
      forall k ensures k in v.m <==> k in w.m {
        assert Entry(v, k) == Entry(w, k);
      }
      forall k | k in v.m ensures v.m[k] == w.m[k] {
        assert Entry(v, k) == Entry(w, k);
      }
      assert v.m == w.m;
    }
  }

  /** Grouping matters only below the keys that all three have. */
  lemma GroupedEntry(a: Value, b: Value, c: Value, k: string)
    requires a.Dict? && b.Dict? && c.Dict?
    ensures Merged(Merged(a, b), c).Dict? && Merged(a, Merged(b, c)).Dict?
    ensures Entry(Merged(Merged(a, b), c), k) == Entry(Merged(a, Merged(b, c)), k)
            <==> (k in a.m && k in b.m && k in c.m ==>
                   Merged(Merged(a.m[k], b.m[k]), c.m[k]) == Merged(a.m[k], Merged(b.m[k], c.m[k])))
  {
    MergedEntry(a, b, k);
    MergedEntry(b, c, k);
    MergedEntry(Merged(a, b), c, k);
    MergedEntry(a, Merged(b, c), k);
  }

  lemma AssociativeByKey(a: Value, b: Value, c: Value)
    requires a.Dict? && b.Dict? && c.Dict?
    ensures Merged(Merged(a, b), c) == Merged(a, Merged(b, c))
            <==> forall k :: k in a.m && k in b.m && k in c.m ==>
                   Merged(Merged(a.m[k], b.m[k]), c.m[k]) == Merged(a.m[k], Merged(b.m[k], c.m[k]))
  {
    GroupedEntry(a, b, c, "");
    var left, right := Merged(Merged(a, b), c), Merged(a, Merged(b, c));
    forall k
      ensures Entry(left, k) == Entry(right, k)
              <==> (k in a.m && k in b.m && k in c.m ==>
                     Merged(Merged(a.m[k], b.m[k]), c.m[k]) == Merged(a.m[k], Merged(b.m[k], c.m[k])))
    {
      GroupedEntry(a, b, c, k);
    }
    SameEntries(left, right);
  }

  /** Not associative in general: a setting that was an object, then a number, then an
      object again loses or keeps its first contents with the grouping. */
  lemma GroupingMatters()
    ensures exists a: Value, b: Value, c: Value :: Merged(Merged(a, b), c) != Merged(a, Merged(b, c))
  {
    var a, b, c := Dict(map["x" := Null]), Num(5.0), Dict(map["y" := Null]);
    AssociativeIff(a, b, c);
    assert "x" in a.m && "x" !in c.m;
    assert Merged(Merged(a, b), c) != Merged(a, Merged(b, c));
  }
}
