/** The history import of chrome_import.py: rows of another browser's History database are
    filtered, given new ids and appended, and their visits follow them. */
module HistoryImport {
  import opened Json
  import opened Strings

  // ── the two databases ─────────────────────────────────────────

  /** A row the source query fetched; `id` is the table's primary key. */
  datatype SourceUrl = SourceUrl(
    id: int, url: Option<string>, title: Option<string>, visitCount: Option<int>,
    typedCount: Option<int>, lastVisit: int, hidden: Option<int>)

  datatype SourceVisit = SourceVisit(
    url: int, time: Option<int>, transition: Option<int>, segment: Option<int>, duration: Option<int>)

  datatype Url = Url(
    id: int, url: Option<string>, title: string, visitCount: int, typedCount: int, lastVisit: int, hidden: int)

  datatype Visit = Visit(url: int, time: int, transition: int, segment: int, duration: int)

  /** Ids are unique and lie behind the counter that gives out the next. */
  predicate Keyed(urls: seq<Url>, nextId: int) {
    && (forall i :: 0 <= i < |urls| ==> urls[i].id < nextId)
    && (forall i, j :: 0 <= i < j < |urls| ==> urls[i].id != urls[j].id)
  }

  predicate UniqueUrls(urls: seq<Url>) {
    forall i, j :: 0 <= i < j < |urls| && urls[i].url.Some? ==> urls[i].url != urls[j].url
  }

  /** `o or d` for a column. */
  function Or(o: Option<int>, d: int): int {
    if o.None? || o.value == 0 then d else o.value
  }

  function TextOr(o: Option<string>, d: string): string {
    if o.None? || o.value == "" then d else o.value
  }

  function NewRow(id: int, r: SourceUrl): Url {
    Url(id, r.url, TextOr(r.title, ""), Or(r.visitCount, 1), Or(r.typedCount, 0), r.lastVisit, Or(r.hidden, 0))
  }

  function NewVisit(urlId: int, v: SourceVisit): Visit
    requires v.time.Some?
  {
    Visit(urlId, v.time.value, Or(v.transition, 805306368), Or(v.segment, 0), Or(v.duration, 0))
  }

  /** Where the first row with this text stands; NULL equals nothing. */
  function Find(urls: seq<Url>, url: Option<string>): (at: Option<nat>)
    ensures at.Some? ==> at.value < |urls| && url.Some? && urls[at.value].url == url
    ensures at.None? && url.Some? ==> forall i :: 0 <= i < |urls| ==> urls[i].url != url
  {
    if url.None? || urls == [] then None
    else if urls[0].url == url then Some(0)
    else match Find(urls[1..], url)
      case None => None
      case Some(i) => Some(i + 1)
  }

  // ── what the import does, as a function ───────────────────────

  predicate Sensitive(markers: seq<string>, url: Option<string>) {
    url.Some? && url.value != "" && exists i :: 0 <= i < |markers| && Contains(Lower(url.value), markers[i])
  }

  function Kept(markers: seq<string>, skip: bool, rows: seq<SourceUrl>): (kept: seq<SourceUrl>)
    ensures forall r :: r in kept <==> r in rows && !(skip && Sensitive(markers, r.url))
  {
    if rows == [] then []
    else
      var last := rows[|rows| - 1];
      Kept(markers, skip, rows[..|rows| - 1]) + if skip && Sensitive(markers, last.url) then [] else [last]
  }

  /** The url table while rows go in. */
  datatype Progress = Progress(urls: seq<Url>, nextId: int, ids: map<int, int>, imported: nat)

  function Put(unique: bool, p: Progress, r: SourceUrl): Progress {
    var at := if unique then Find(p.urls, r.url) else None;
    if at.Some? then
      var row := p.urls[at.value];
      p.(urls := p.urls[at.value := row.(visitCount := row.visitCount + Or(r.visitCount, 1))],
         ids := p.ids[r.id := row.id])
    else
      Progress(p.urls + [NewRow(p.nextId, r)], p.nextId + 1, p.ids[r.id := p.nextId], p.imported + 1)
  }

  function PutAll(unique: bool, urls: seq<Url>, nextId: int, rows: seq<SourceUrl>): Progress
    decreases |rows|
  {
    if rows == [] then Progress(urls, nextId, map[], 0)
    else Put(unique, PutAll(unique, urls, nextId, rows[..|rows| - 1]), rows[|rows| - 1])
  }

  /** A visit goes in when its url row did; one without a time is refused by the table. */
  predicate Lands(ids: map<int, int>, v: SourceVisit) {
    v.url in ids && v.time.Some?
  }

  function Rekeyed(ids: map<int, int>, visits: seq<SourceVisit>): seq<Visit>
    decreases |visits|
  {
    if visits == [] then []
    else
      var v := visits[|visits| - 1];
      Rekeyed(ids, visits[..|visits| - 1]) + if Lands(ids, v) then [NewVisit(ids[v.url], v)] else []
  }

  /** `SELECT … FROM visits WHERE url IN (…)` */
  function VisitsOf(visits: seq<SourceVisit>, rows: seq<SourceUrl>): (found: seq<SourceVisit>)
    ensures forall v :: v in found <==> v in visits && exists r :: r in rows && r.id == v.url
    decreases |visits|
  {
    if visits == [] then []
    else
      var v := visits[|visits| - 1];
      VisitsOf(visits[..|visits| - 1], rows)
      + if exists i :: 0 <= i < |rows| && rows[i].id == v.url then [v] else []
  }

  // ── the destination and the loops over it ─────────────────────

  class History {
    /** Whether the url column is declared UNIQUE. */
    const unique: bool
    var urls: seq<Url>
    var nextId: int
    var visits: seq<Visit>

    /** The schema the importer creates declares no such constraint. */
    constructor ()
      ensures !unique && urls == [] && visits == [] && Keyed(urls, nextId)
    {
      unique, urls, nextId, visits := false, [], 1, [];
    }

    /** None is an IntegrityError, and nothing has changed. */
    method InsertUrl(r: SourceUrl) returns (id: Option<int>)
      modifies `urls, `nextId
      ensures id == if unique && Find(old(urls), r.url).Some? then None else Some(old(nextId))
      ensures id.None? ==> urls == old(urls) && nextId == old(nextId)
      ensures id.Some? ==> urls == old(urls) + [NewRow(old(nextId), r)] && nextId == old(nextId) + 1
    {
      if unique && Find(urls, r.url).Some? {
        return None;
      }
      id := Some(nextId);
      urls, nextId := urls + [NewRow(nextId, r)], nextId + 1;
    }

    method ImportUrls(rows: seq<SourceUrl>) returns (ids: map<int, int>, imported: nat)
      modifies `urls, `nextId
      ensures PutAll(unique, old(urls), old(nextId), rows) == Progress(urls, nextId, ids, imported)
    {
      ids, imported := map[], 0;
      for n := 0 to |rows|
        invariant PutAll(unique, old(urls), old(nextId), rows[..n]) == Progress(urls, nextId, ids, imported)
      {
        assert rows[..n + 1][..n] == rows[..n];
        var r := rows[n];
        var id := InsertUrl(r);
        if id.Some? {
          ids := ids[r.id := id.value];
          imported := imported + 1;
        } else {
          var at := Find(urls, r.url);
          if at.Some? {
            var row := urls[at.value];
            urls := urls[at.value := row.(visitCount := row.visitCount + Or(r.visitCount, 1))];
            ids := ids[r.id := row.id];
          }
        }
      }
      assert rows[..|rows|] == rows;
    }

    method ImportVisits(found: seq<SourceVisit>, ids: map<int, int>)
      modifies `visits
      ensures visits == old(visits) + Rekeyed(ids, found)
    {
      for n := 0 to |found|
        invariant visits == old(visits) + Rekeyed(ids, found[..n])
      {
        assert found[..n + 1][..n] == found[..n];
        var v := found[n];
        if v.url in ids {
          if v.time.Some? {
            visits := visits + [NewVisit(ids[v.url], v)];
          }
        }
      }
      assert found[..|found|] == found;
    }

    /** `import_history`, from the fetched rows to the commit. */
    method Import(markers: seq<string>, skip: bool, rows: seq<SourceUrl>, source: seq<SourceVisit>) returns (imported: nat)
      modifies this
      ensures var kept := Kept(markers, skip, rows);
              var p := PutAll(unique, old(urls), old(nextId), kept);
              && urls == p.urls && nextId == p.nextId && imported == p.imported
              && visits == old(visits) + Rekeyed(p.ids, VisitsOf(source, kept))
    {
      var kept := rows;
      if skip {
        kept := [];
        for n := 0 to |rows|
          invariant kept == Kept(markers, skip, rows[..n])
        {
          assert rows[..n + 1][..n] == rows[..n];
          if !Sensitive(markers, rows[n].url) {
            kept := kept + [rows[n]];
          }
        }
        assert rows[..|rows|] == rows;
      } else {
        KeepsAll(markers, rows);
      }
      var found := VisitsOf(source, kept);
      var ids;
      ids, imported := ImportUrls(kept);
      ImportVisits(found, ids);
    }
  }

  lemma {:induction false} KeepsAll(markers: seq<string>, rows: seq<SourceUrl>)
    ensures Kept(markers, false, rows) == rows
    decreases |rows|
  {
    if rows != [] {
      KeepsAll(markers, rows[..|rows| - 1]);
      assert rows == rows[..|rows| - 1] + [rows[|rows| - 1]];
    }
  }

  // ── what the filter drops ─────────────────────────────────────

  /** A URL is sensitive exactly when some piece of it is a marker in some case of letters. */
  lemma SensitiveIff(markers: seq<string>, url: string)
    ensures Sensitive(markers, Some(url))
            <==> url != "" && exists a, b, i :: 0 <= a <= b <= |url| && 0 <= i < |markers| && Lower(url[a..b]) == markers[i]
    ensures !Sensitive(markers, None)
  {
    if Sensitive(markers, Some(url)) {
      var i :| 0 <= i < |markers| && Contains(Lower(url), markers[i]);
      var a :| 0 <= a <= |url| && markers[i] <= Lower(url)[a..];
      assert Lower(url[a..a + |markers[i]|]) == markers[i];
    }
    if url != "" && exists a, b, i :: 0 <= a <= b <= |url| && 0 <= i < |markers| && Lower(url[a..b]) == markers[i] {
      var a, b, i :| 0 <= a <= b <= |url| && 0 <= i < |markers| && Lower(url[a..b]) == markers[i];
      assert markers[i] <= Lower(url)[a..];
    }
  }

  /** Filtering goes row by row, in order. */
  lemma {:induction false} KeptInOrder(markers: seq<string>, skip: bool, a: seq<SourceUrl>, b: seq<SourceUrl>)
    ensures Kept(markers, skip, a + b) == Kept(markers, skip, a) + Kept(markers, skip, b)
    decreases |b|
  {
    if b == [] {
      assert a + b == a;
    } else {
      var init := b[..|b| - 1];
      assert (a + b)[..|a + b| - 1] == a + init;
      KeptInOrder(markers, skip, a, init);
    }
  }

  /** Visits go in in order. */
  lemma {:induction false} RekeyedInOrder(ids: map<int, int>, a: seq<SourceVisit>, b: seq<SourceVisit>)
    ensures Rekeyed(ids, a + b) == Rekeyed(ids, a) + Rekeyed(ids, b)
    decreases |b|
  {
    if b == [] {
      assert a + b == a;
    } else {
      var init := b[..|b| - 1];
      assert (a + b)[..|a + b| - 1] == a + init;
      RekeyedInOrder(ids, a, init);
    }
  }

  // ── where the ids lead ────────────────────────────────────────

  predicate DistinctIds(rows: seq<SourceUrl>) {
    forall i, j :: 0 <= i < j < |rows| ==> rows[i].id != rows[j].id
  }

  /** Row `id` of the table carries this text. */
  predicate Names(urls: seq<Url>, id: int, url: Option<string>) {
    exists i :: 0 <= i < |urls| && urls[i].id == id && urls[i].url == url
  }

  /** Rows keep their ids and texts; new ones come behind. */
  predicate Extends(urls: seq<Url>, later: seq<Url>) {
    && |urls| <= |later|
    && forall i :: 0 <= i < |urls| ==> later[i].id == urls[i].id && later[i].url == urls[i].url
  }

  lemma PutStep(unique: bool, p: Progress, r: SourceUrl)
    requires Keyed(p.urls, p.nextId)
    ensures var q := Put(unique, p, r);
            && Keyed(q.urls, q.nextId) && Extends(p.urls, q.urls)
            && q.ids.Keys == p.ids.Keys + {r.id} && Names(q.urls, q.ids[r.id], r.url)
            && (forall id :: id in p.ids && id != r.id ==> q.ids[id] == p.ids[id])
  {
    var q := Put(unique, p, r);
    var at := if unique then Find(p.urls, r.url) else None;
    if at.Some? {
      assert q.urls[at.value].id == q.ids[r.id] && q.urls[at.value].url == r.url;
    } else {
      assert q.urls[|p.urls|].id == q.ids[r.id] && q.urls[|p.urls|].url == r.url;
    }
  }

  lemma NamesLater(urls: seq<Url>, later: seq<Url>, id: int, url: Option<string>)
    requires Names(urls, id, url) && Extends(urls, later)
    ensures Names(later, id, url)
  {
    var i :| 0 <= i < |urls| && urls[i].id == id && urls[i].url == url;
    assert later[i].id == id && later[i].url == url;
  }

  /** The id map has an entry for every row and for nothing else. */
  lemma {:induction false} MappedIds(unique: bool, urls: seq<Url>, nextId: int, rows: seq<SourceUrl>, id: int)
    ensures id in PutAll(unique, urls, nextId, rows).ids <==> exists i :: 0 <= i < |rows| && rows[i].id == id
    decreases |rows|
  {
    if rows != [] {
      var init, last := rows[..|rows| - 1], rows[|rows| - 1];
      MappedIds(unique, urls, nextId, init, id);
      assert Put(unique, PutAll(unique, urls, nextId, init), last).ids.Keys == PutAll(unique, urls, nextId, init).ids.Keys + {last.id};
      if last.id == id {
        assert rows[|rows| - 1].id == id;
      }
      assert forall i :: 0 <= i < |init| ==> init[i] == rows[i];
    }
  }

  /** Every imported row has an id of its own table, and the row with that id carries the
      source row's text. Rows that were there keep their ids and texts. */
  lemma {:induction false} IdsLeadToSameText(unique: bool, urls: seq<Url>, nextId: int, rows: seq<SourceUrl>)
    requires Keyed(urls, nextId) && DistinctIds(rows)
    ensures var p := PutAll(unique, urls, nextId, rows);
            && Keyed(p.urls, p.nextId) && Extends(urls, p.urls)
            && (forall i :: 0 <= i < |rows| ==> rows[i].id in p.ids && Names(p.urls, p.ids[rows[i].id], rows[i].url))
    decreases |rows|
  {
    if rows != [] {
      var init, last := rows[..|rows| - 1], rows[|rows| - 1];
      IdsLeadToSameText(unique, urls, nextId, init);
      var p := PutAll(unique, urls, nextId, init);
      var q := Put(unique, p, last);
      PutStep(unique, p, last);
      forall i | 0 <= i < |rows| ensures rows[i].id in q.ids && Names(q.urls, q.ids[rows[i].id], rows[i].url) {
        if i < |init| {
          assert init[i] == rows[i] && rows[i].id != last.id;
          NamesLater(p.urls, q.urls, p.ids[rows[i].id], rows[i].url);
        }
      }
    }
  }

  /** One new visit stems from this source visit of this kept row and refers to a row with
      the same text. */
  predicate StemsFrom(urls: seq<Url>, w: Visit, v: SourceVisit, r: SourceUrl) {
    && r.id == v.url && Names(urls, w.url, r.url)
    && v.time == Some(w.time) && w.transition == Column(v.transition, 805306368)
    && w.segment == Column(v.segment, 0) && w.duration == Column(v.duration, 0)
  }

  /** What a column becomes: zero and NULL count as missing. */
  function Column(o: Option<int>, default: int): int {
    match o
    case None => default
    case Some(n) => if n == 0 then default else n
  }

  lemma {:induction false} RekeyedStem(ids: map<int, int>, visits: seq<SourceVisit>, w: Visit)
    requires w in Rekeyed(ids, visits)
    ensures exists v :: v in visits && Lands(ids, v) && w == NewVisit(ids[v.url], v)
    decreases |visits|
  {
    var v := visits[|visits| - 1];
    if Lands(ids, v) && w == NewVisit(ids[v.url], v) {
    } else {
      RekeyedStem(ids, visits[..|visits| - 1], w);
    }
  }

  /** Every inserted visit stems from a source visit whose row passed the filter, and the
      destination row it refers to holds that row's text. */
  lemma VisitsFollowTheirRows(
      unique: bool, urls: seq<Url>, nextId: int, markers: seq<string>, skip: bool,
      rows: seq<SourceUrl>, source: seq<SourceVisit>, w: Visit)
    requires Keyed(urls, nextId) && DistinctIds(Kept(markers, skip, rows))
    requires var kept := Kept(markers, skip, rows);
             w in Rekeyed(PutAll(unique, urls, nextId, kept).ids, VisitsOf(source, kept))
    ensures exists v, r :: v in source && r in rows && !(skip && Sensitive(markers, r.url))
              && StemsFrom(PutAll(unique, urls, nextId, Kept(markers, skip, rows)).urls, w, v, r)
  {
    var kept := Kept(markers, skip, rows);
    var p := PutAll(unique, urls, nextId, kept);
    RekeyedStem(p.ids, VisitsOf(source, kept), w);
    var v :| v in VisitsOf(source, kept) && Lands(p.ids, v) && w == NewVisit(p.ids[v.url], v);
    var r := KeptOrigin(unique, urls, nextId, kept, v, w);
    assert r in kept && v in source;
  }

  /** The row a landed visit belongs to. */
  lemma KeptOrigin(unique: bool, urls: seq<Url>, nextId: int, kept: seq<SourceUrl>, v: SourceVisit, w: Visit) returns (r: SourceUrl)
    requires Keyed(urls, nextId) && DistinctIds(kept)
    requires var ids := PutAll(unique, urls, nextId, kept).ids; Lands(ids, v) && w == NewVisit(ids[v.url], v)
    ensures r in kept && StemsFrom(PutAll(unique, urls, nextId, kept).urls, w, v, r)
  {
    IdsLeadToSameText(unique, urls, nextId, kept);
    MappedIds(unique, urls, nextId, kept, v.url);
    var i :| 0 <= i < |kept| && kept[i].id == v.url;
    r := kept[i];
  }

  /** Source ids stay distinct under the filter. */
  lemma {:induction false} KeptIdsDistinct(markers: seq<string>, skip: bool, rows: seq<SourceUrl>)
    requires DistinctIds(rows)
    ensures DistinctIds(Kept(markers, skip, rows))
    decreases |rows|
  {
    if rows != [] {
      var init, last := rows[..|rows| - 1], rows[|rows| - 1];
      KeptIdsDistinct(markers, skip, init);
      var kept := Kept(markers, skip, init);
      forall i | 0 <= i < |kept| ensures kept[i].id != last.id {
        assert kept[i] in init;
      }
    }
  }

  /** How many source visits belong to a kept row and have a time. */
  function Due(visits: seq<SourceVisit>, rows: seq<SourceUrl>): nat
    decreases |visits|
  {
    if visits == [] then 0
    else
      var v := visits[|visits| - 1];
      Due(visits[..|visits| - 1], rows)
      + if v.time.Some? && exists i :: 0 <= i < |rows| && rows[i].id == v.url then 1 else 0
  }

  /** No visit of a kept row is dropped, whether its row was inserted or merged. */
  lemma NoVisitIsLost(unique: bool, urls: seq<Url>, nextId: int, rows: seq<SourceUrl>, source: seq<SourceVisit>)
    ensures |Rekeyed(PutAll(unique, urls, nextId, rows).ids, VisitsOf(source, rows))| == Due(source, rows)
  {
    forall id ensures id in PutAll(unique, urls, nextId, rows).ids <==> exists i :: 0 <= i < |rows| && rows[i].id == id {
      MappedIds(unique, urls, nextId, rows, id);
    }
    DueLand(PutAll(unique, urls, nextId, rows).ids, rows, source);
  }

  lemma {:induction false} DueLand(ids: map<int, int>, rows: seq<SourceUrl>, source: seq<SourceVisit>)
    requires forall id :: id in ids <==> exists i :: 0 <= i < |rows| && rows[i].id == id
    ensures |Rekeyed(ids, VisitsOf(source, rows))| == Due(source, rows)
    decreases |source|
  {
    if source != [] {
      var init, v := source[..|source| - 1], source[|source| - 1];
      DueLand(ids, rows, init);
      if exists i :: 0 <= i < |rows| && rows[i].id == v.url {
        var found := VisitsOf(init, rows) + [v];
        assert VisitsOf(source, rows) == found && found[..|found| - 1] == VisitsOf(init, rows);
        assert v.url in ids;
      } else {
        assert VisitsOf(source, rows) == VisitsOf(init, rows);
      }
    }
  }

  // ── conservation ──────────────────────────────────────────────

  function Total(urls: seq<Url>): int
    decreases |urls|
  {
    if urls == [] then 0 else Total(urls[..|urls| - 1]) + urls[|urls| - 1].visitCount
  }

  /** What the rows are worth: a missing or zero count is one visit. */
  function Worth(rows: seq<SourceUrl>): int
    decreases |rows|
  {
    if rows == [] then 0 else Worth(rows[..|rows| - 1]) + Or(rows[|rows| - 1].visitCount, 1)
  }

  lemma {:induction false} TotalOfUpdate(urls: seq<Url>, at: nat, row: Url)
    requires at < |urls|
    ensures Total(urls[at := row]) == Total(urls) - urls[at].visitCount + row.visitCount
    decreases |urls|
  {
    var n := |urls| - 1;
    if at < n {
      TotalOfUpdate(urls[..n], at, row);
      assert urls[at := row][..n] == urls[..n][at := row];
    } else {
      assert urls[at := row][..n] == urls[..n];
    }
  }

  lemma PutWorth(unique: bool, p: Progress, r: SourceUrl)
    ensures Total(Put(unique, p, r).urls) == Total(p.urls) + Or(r.visitCount, 1)
  {
    var at := if unique then Find(p.urls, r.url) else None;
    if at.Some? {
      var row := p.urls[at.value];
      TotalOfUpdate(p.urls, at.value, row.(visitCount := row.visitCount + Or(r.visitCount, 1)));
    } else {
      var urls := p.urls + [NewRow(p.nextId, r)];
      assert urls[..|urls| - 1] == p.urls;
    }
  }

  /** The table's visit counts grow by the worth of the imported rows, inserted or merged. */
  lemma {:induction false} VisitCountsAdd(unique: bool, urls: seq<Url>, nextId: int, rows: seq<SourceUrl>)
    ensures Total(PutAll(unique, urls, nextId, rows).urls) == Total(urls) + Worth(rows)
    decreases |rows|
  {
    if rows != [] {
      VisitCountsAdd(unique, urls, nextId, rows[..|rows| - 1]);
      PutWorth(unique, PutAll(unique, urls, nextId, rows[..|rows| - 1]), rows[|rows| - 1]);
    }
  }

  // ── the merge branch ──────────────────────────────────────────

  /** Without a UNIQUE constraint no row is ever merged: every row goes in as a new one,
      and the old ones stay as they were. */
  lemma {:induction false} NothingMergesWithoutUnique(urls: seq<Url>, nextId: int, rows: seq<SourceUrl>)
    ensures var p := PutAll(false, urls, nextId, rows);
            && p.imported == |rows| && |p.urls| == |urls| + |rows| && urls <= p.urls
            && (forall i :: 0 <= i < |rows| ==> Copies(p.urls[|urls| + i], nextId + i, rows[i]))
    decreases |rows|
  {
    if rows != [] {
      NothingMergesWithoutUnique(urls, nextId, rows[..|rows| - 1]);
    }
  }

  /** The row is the source row under its new id. */
  predicate Copies(row: Url, id: int, r: SourceUrl) {
    && row.id == id && row.url == r.url && row.title == (if r.title.Some? then r.title.value else "")
    && row.visitCount == Column(r.visitCount, 1) && row.typedCount == Column(r.typedCount, 0)
    && row.lastVisit == r.lastVisit && row.hidden == Column(r.hidden, 0)
  }

  /** What one more row does under a UNIQUE column: a known text adds its visits to the row
      that has it and changes nothing else, and a new one is appended. */
  lemma UniqueMergesOrAppends(urls: seq<Url>, nextId: int, rows: seq<SourceUrl>, r: SourceUrl, at: nat)
    requires UniqueUrls(urls)
    ensures var p, q := PutAll(true, urls, nextId, rows), PutAll(true, urls, nextId, rows + [r]);
            && (at < |p.urls| && r.url.Some? && p.urls[at].url == r.url ==>
                  && q.urls == p.urls[at := p.urls[at].(visitCount := p.urls[at].visitCount + Column(r.visitCount, 1))]
                  && q.ids == p.ids[r.id := p.urls[at].id] && q.imported == p.imported)
            && ((forall i :: 0 <= i < |p.urls| ==> r.url.None? || p.urls[i].url != r.url) ==>
                  && |q.urls| == |p.urls| + 1 && p.urls <= q.urls && Copies(q.urls[|p.urls|], p.nextId, r)
                  && q.ids == p.ids[r.id := p.nextId] && q.imported == p.imported + 1)
  {
    var p := PutAll(true, urls, nextId, rows);
    assert (rows + [r])[..|rows|] == rows;
    UniqueStaysUnique(urls, nextId, rows);
    if at < |p.urls| && r.url.Some? && p.urls[at].url == r.url {
      var found := Find(p.urls, r.url);
      assert found.Some? && p.urls[found.value].url == p.urls[at].url;
      assert found.value == at;
    }
  }

  /** With one, each text stands in at most one row, and only the rows counted as imported
      were added. */
  lemma {:induction false} UniqueStaysUnique(urls: seq<Url>, nextId: int, rows: seq<SourceUrl>)
    requires UniqueUrls(urls)
    ensures var p := PutAll(true, urls, nextId, rows);
            UniqueUrls(p.urls) && |p.urls| == |urls| + p.imported
    decreases |rows|
  {
    if rows != [] {
      UniqueStaysUnique(urls, nextId, rows[..|rows| - 1]);
    }
  }

  /** So importing any rows, one of which has a text, a second time leaves each text in one
      row exactly when the column is UNIQUE. */
  lemma ReimportDuplicatesIff(unique: bool, urls: seq<Url>, nextId: int, rows: seq<SourceUrl>)
    requires UniqueUrls(urls) && exists i :: 0 <= i < |rows| && rows[i].url.Some?
    ensures var once := PutAll(unique, urls, nextId, rows);
            UniqueUrls(PutAll(unique, once.urls, once.nextId, rows).urls) <==> unique
  {
    var once := PutAll(unique, urls, nextId, rows);
    if unique {
      UniqueStaysUnique(urls, nextId, rows);
      UniqueStaysUnique(once.urls, once.nextId, rows);
    } else {
      NothingMergesWithoutUnique(urls, nextId, rows);
      NothingMergesWithoutUnique(once.urls, once.nextId, rows);
      var all := PutAll(false, once.urls, once.nextId, rows).urls;
      var i :| 0 <= i < |rows| && rows[i].url.Some?;
      assert all[|urls| + i] == once.urls[|urls| + i];
      assert all[|urls| + i].url == all[|once.urls| + i].url;
    }
  }
}
