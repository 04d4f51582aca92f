/** The model list of one provider in backend/api/settings/provider_models.py, with the migration of
    `AppConfig` in backend/modules/config/schema.py. */
module ModelCatalogue {
  import opened Common
  import opened Text

  datatype Source = Builtin | Manual | Fetched

  datatype Entry = Entry(
    id: string, displayName: string, enabled: bool, contextWindow: int, supportsImage: Option<bool>,
    levels: seq<string>, level: string, source: Source)

  /** An empty text, a zero context window and an empty list stand for `None`: the code treats them alike.
      Levels and source are given as `strip().lower()` leaves them. */
  datatype Payload = Payload(
    id: string, displayName: string, enabled: bool, contextWindow: int, supportsImage: Option<bool>,
    levels: seq<string>, level: string, source: string)

  function Ids(ms: seq<Entry>): seq<string> {
    seq(|ms|, i requires 0 <= i < |ms| => ms[i].id)
  }

  function IdSet(ms: seq<Entry>): set<string> {
    set i | 0 <= i < |ms| :: ms[i].id
  }

  ghost predicate Unique(ms: seq<Entry>) {
    forall i, j :: 0 <= i < j < |ms| ==> ms[i].id != ms[j].id
  }

  /** `find_model`: place of the first entry with that id, or the length of the list. */
  function Find(ms: seq<Entry>, id: string): (k: nat)
    ensures k <= |ms|
    ensures k < |ms| ==> ms[k].id == id
    ensures forall i :: 0 <= i < k ==> ms[i].id != id
  {
    if ms == [] || ms[0].id == id then 0 else 1 + Find(ms[1..], id)
  }

  // ---------- add ----------

  /** The ids of `order` that name a model, each at its first mention. */
  function FirstMentions(order: seq<string>, known: set<string>, used: set<string>): seq<string>
    decreases |order|
  {
    if order == [] then []
    else if order[0] != "" && order[0] in known && order[0] !in used
    then [order[0]] + FirstMentions(order[1..], known, used + {order[0]})
    else FirstMentions(order[1..], known, used)
  }

  function ToSet(xs: seq<string>): set<string> {
    set x | x in xs
  }

  lemma {:induction false} ToSetSnoc(xs: seq<string>, x: string)
    ensures ToSet(xs + [x]) == ToSet(xs) + {x}
  {
  }

  /** The levels that are not empty, each at its first mention. */
  function Normalized(levels: seq<string>): seq<string> {
    FirstMentions(levels, ToSet(levels), {})
  }

  lemma {:induction false} FirstMentionsFacts(order: seq<string>, known: set<string>, used: set<string>)
    ensures var r := FirstMentions(order, known, used);
            && (forall x :: x in r <==> x in order && x != "" && x in known && x !in used)
            && (forall i, j :: 0 <= i < j < |r| ==> r[i] != r[j])
    decreases |order|
  {
    if order != [] {
      if order[0] != "" && order[0] in known && order[0] !in used {
        FirstMentionsFacts(order[1..], known, used + {order[0]});
      } else {
        FirstMentionsFacts(order[1..], known, used);
      }
    }
  }

  /** The first place of an id in the list, or the length of the list. */
  function FirstPlace(order: seq<string>, id: string): (k: nat)
    ensures k <= |order| && (k < |order| ==> order[k] == id)
    ensures forall i :: 0 <= i < k ==> order[i] != id
  {
    if order == [] || order[0] == id then 0 else 1 + FirstPlace(order[1..], id)
  }

  /** They come in the order of their first places. */
  lemma {:induction false} MentionsInOrder(order: seq<string>, known: set<string>, used: set<string>)
    ensures var r := FirstMentions(order, known, used);
            forall i, j :: 0 <= i < j < |r| ==> FirstPlace(order, r[i]) < FirstPlace(order, r[j])
    decreases |order|
  {
    if order != [] {
      var r := FirstMentions(order, known, used);
      FirstMentionsFacts(order, known, used);
      if order[0] != "" && order[0] in known && order[0] !in used {
        MentionsInOrder(order[1..], known, used + {order[0]});
        FirstMentionsFacts(order[1..], known, used + {order[0]});
        assert FirstPlace(order, order[0]) == 0 && r[1..] == FirstMentions(order[1..], known, used + {order[0]});
        forall j | 0 < j < |r| ensures FirstPlace(order, r[j]) == 1 + FirstPlace(order[1..], r[1..][j - 1]) {
          assert r[j] == r[1..][j - 1] && r[1..][j - 1] in r[1..];
        }
      } else {
        MentionsInOrder(order[1..], known, used);
        assert r == FirstMentions(order[1..], known, used);
        forall j | 0 <= j < |r| ensures FirstPlace(order, r[j]) == 1 + FirstPlace(order[1..], r[j]) {
          assert r[j] in r && r[j] != order[0];
        }
      }
    }
  }

  lemma {:induction false} MentionStep(order: seq<string>, known: set<string>, used: set<string>, i: nat,
                                       done: seq<string>)
    requires i < |order|
    ensures done + FirstMentions(order[i..], known, used)
         == if order[i] != "" && order[i] in known && order[i] !in used
            then done + [order[i]] + FirstMentions(order[i + 1..], known, used + {order[i]})
            else done + FirstMentions(order[i + 1..], known, used)
  {
    assert order[i..][1..] == order[i + 1..];
  }

  method NormalizeReasoningLevels(levels: seq<string>) returns (normalized: seq<string>)
    ensures normalized == Normalized(levels)
    ensures forall l :: l in normalized <==> l in levels && l != ""
    ensures forall i, j :: 0 <= i < j < |normalized| ==>
              FirstPlace(levels, normalized[i]) < FirstPlace(levels, normalized[j])
  {
    normalized := [];
    ghost var known := ToSet(levels);
    assert levels[0..] == levels && ToSet([]) == {};
    for i := 0 to |levels|
      invariant normalized + FirstMentions(levels[i..], known, ToSet(normalized)) == Normalized(levels)
    {
      MentionStep(levels, known, ToSet(normalized), i, normalized);
      ToSetSnoc(normalized, levels[i]);
      assert levels[i] in known;
      if levels[i] != "" && levels[i] !in normalized {
        normalized := normalized + [levels[i]];
      }
    }
    FirstMentionsFacts(levels, known, {});
    MentionsInOrder(levels, known, {});
  }

  function SourceNamed(name: string): Option<Source> {
    match name
    case "builtin" => Some(Builtin)
    case "manual" => Some(Manual)
    case "fetched" => Some(Fetched)
    case _ => None
  }

  /** The entry's own source if it names one, else that of the batch, else `manual`. */
  function EntrySource(own: string, batch: string): Source {
    match SourceNamed(own)
    case Some(source) => source
    case None => match SourceNamed(batch) { case Some(source) => source case None => Manual }
  }

  function NewEntry(p: Payload, batch: string): Entry {
    Entry(Strip(p.id), Strip(p.displayName), p.enabled, if p.contextWindow > 0 then p.contextWindow else 0,
          p.supportsImage, Normalized(p.levels), p.level, EntrySource(p.source, batch))
  }

  method ToModelEntry(p: Payload, batch: string) returns (e: Entry)
    ensures e == NewEntry(p, batch)
  {
    var levels := NormalizeReasoningLevels(p.levels);
    e := Entry(Strip(p.id), Strip(p.displayName), p.enabled, if p.contextWindow > 0 then p.contextWindow else 0,
               p.supportsImage, levels, p.level, EntrySource(p.source, batch));
  }

  /** Only empty fields are filled in; the source stays. */
  function Filled(e: Entry, p: Payload): Entry {
    e.(displayName := if p.displayName != "" && e.displayName == "" then Strip(p.displayName) else e.displayName,
       contextWindow := if p.contextWindow != 0 && e.contextWindow == 0 then p.contextWindow else e.contextWindow,
       supportsImage := if p.supportsImage.Some? && e.supportsImage.None? then p.supportsImage else e.supportsImage,
       levels := if p.levels != [] && e.levels == [] then Normalized(p.levels) else e.levels,
       level := if p.level != "" && e.level == "" then p.level else e.level)
  }

  function AddOne(ms: seq<Entry>, p: Payload, batch: string): seq<Entry> {
    var id := Strip(p.id);
    if id == "" then ms
    else
      var k := Find(ms, id);
      if k == |ms| then ms + [NewEntry(p, batch)] else ms[k := Filled(ms[k], p)]
  }

  function AddAll(ms: seq<Entry>, ps: seq<Payload>, batch: string): seq<Entry>
    decreases |ps|
  {
    if ps == [] then ms else AddAll(AddOne(ms, ps[0], batch), ps[1..], batch)
  }

  /** `find_model` with `ensure_model`: an id that is not there gets an entry of its own, with the
      defaults. */
  function Ensured(ms: seq<Entry>, id: string): seq<Entry> {
    if Strip(id) == "" || Find(ms, Strip(id)) < |ms| then ms
    else ms + [Entry(Strip(id), "", true, 0, None, [], "", Manual)]
  }

  /** `r` keeps every entry of `ms` where it was, with the settings it had. */
  ghost predicate Extends(ms: seq<Entry>, r: seq<Entry>) {
    && |ms| <= |r|
    && forall i :: 0 <= i < |ms| ==> KeepsSettings(ms[i], r[i])
  }

  predicate KeepsSettings(e: Entry, f: Entry) {
    && f.id == e.id
    && f.enabled == e.enabled
    && (e.displayName != "" ==> f.displayName == e.displayName)
    && (e.contextWindow != 0 ==> f.contextWindow == e.contextWindow)
    && (e.supportsImage.Some? ==> f.supportsImage == e.supportsImage)
    && (e.levels != [] ==> f.levels == e.levels)
    && (e.level != "" ==> f.level == e.level)
    && f.source == e.source
  }

  lemma {:induction false} AddOneKeeps(ms: seq<Entry>, p: Payload, batch: string)
    ensures Extends(ms, AddOne(ms, p, batch))
    ensures Unique(ms) ==> Unique(AddOne(ms, p, batch))
    ensures forall id :: id in IdSet(AddOne(ms, p, batch)) <==> id in IdSet(ms) || (id != "" && id == Strip(p.id))
  {
    var own, r := Strip(p.id), AddOne(ms, p, batch);
    if own != "" {
      var k := Find(ms, own);
      assert r[k].id == own;
      forall id ensures id in IdSet(r) <==> id in IdSet(ms) || id == own {
        if id in IdSet(ms) { var i :| 0 <= i < |ms| && ms[i].id == id; assert r[i].id == id; }
        if id in IdSet(r) && id != own { var i :| 0 <= i < |r| && r[i].id == id; assert i < |ms| && ms[i].id == id; }
      }
    }
  }

  lemma {:induction false} EnsuredKeeps(ms: seq<Entry>, id: string)
    ensures ms <= Ensured(ms, id) && Extends(ms, Ensured(ms, id))
    ensures Unique(ms) ==> Unique(Ensured(ms, id))
    ensures forall x :: x in IdSet(Ensured(ms, id)) <==> x in IdSet(ms) || (x != "" && x == Strip(id))
  {
    var own, r := Strip(id), Ensured(ms, id);
    if own != "" {
      assert r[Find(ms, own)].id == own;
      forall x ensures x in IdSet(r) <==> x in IdSet(ms) || x == own {
        if x in IdSet(ms) { var i :| 0 <= i < |ms| && ms[i].id == x; assert r[i].id == x; }
        if x in IdSet(r) && x != own { var i :| 0 <= i < |r| && r[i].id == x; assert i < |ms| && ms[i].id == x; }
      }
    }
  }

  lemma {:induction false} ExtendsTrans(a: seq<Entry>, b: seq<Entry>, c: seq<Entry>)
    requires Extends(a, b) && Extends(b, c)
    ensures Extends(a, c)
  {
    forall i | 0 <= i < |a| ensures KeepsSettings(a[i], c[i]) {
      assert KeepsSettings(a[i], b[i]) && KeepsSettings(b[i], c[i]);
    }
  }

  predicate Mentioned(ps: seq<Payload>, id: string) {
    exists i :: 0 <= i < |ps| && Strip(ps[i].id) == id
  }

  /** Adding keeps the existing entries in place with their settings, never repeats an id, and puts
      exactly the payloads' ids that are not blank beside the old ones. */
  lemma {:induction false} AddKeeps(ms: seq<Entry>, ps: seq<Payload>, batch: string)
    ensures Extends(ms, AddAll(ms, ps, batch))
    ensures Unique(ms) ==> Unique(AddAll(ms, ps, batch))
    ensures forall id :: id in IdSet(AddAll(ms, ps, batch)) <==> id in IdSet(ms) || (id != "" && Mentioned(ps, id))
    decreases |ps|
  {
    if ps == [] {
      assert forall e: Entry :: KeepsSettings(e, e);
    } else {
      var m1 := AddOne(ms, ps[0], batch);
      AddOneKeeps(ms, ps[0], batch);
      AddKeeps(m1, ps[1..], batch);
      ExtendsTrans(ms, m1, AddAll(m1, ps[1..], batch));
      forall id ensures Mentioned(ps, id) <==> Strip(ps[0].id) == id || Mentioned(ps[1..], id)
      { MentionedCons(ps, id); }
    }
  }

  lemma {:induction false} MentionedCons(ps: seq<Payload>, id: string)
    requires ps != []
    ensures Mentioned(ps, id) <==> Strip(ps[0].id) == id || Mentioned(ps[1..], id)
  {
    if Mentioned(ps, id) {
      var i :| 0 <= i < |ps| && Strip(ps[i].id) == id;
      if i > 0 { assert ps[1..][i - 1] == ps[i]; }
    }
    if Mentioned(ps[1..], id) {
      var i :| 0 <= i < |ps| - 1 && Strip(ps[1..][i].id) == id;
      assert ps[i + 1] == ps[1..][i];
    }
  }

  lemma {:induction false} AppendedIsFound(ms: seq<Entry>, e: Entry, r: seq<Entry>)
    requires e.id !in IdSet(ms) && Extends(ms + [e], r)
    ensures Find(r, e.id) == |ms| && KeepsSettings(e, r[|ms|])
  {
    assert KeepsSettings((ms + [e])[|ms|], r[|ms|]);
    forall i | 0 <= i < |ms| ensures r[i].id != e.id {
      assert KeepsSettings((ms + [e])[i], r[i]) && ms[i].id in IdSet(ms);
    }
  }

  lemma {:induction false} FindFails(ms: seq<Entry>, id: string)
    ensures Find(ms, id) == |ms| <==> id !in IdSet(ms)
  {
    if Find(ms, id) < |ms| { assert ms[Find(ms, id)].id == id; }
  }

  // ---------- the fields of a model ----------

  /** The payloads that name the model, in their order. */
  function Naming(ps: seq<Payload>, id: string): (r: seq<Payload>)
    ensures forall p :: p in r <==> p in ps && Strip(p.id) == id
  {
    if ps == [] then [] else (if Strip(ps[0].id) == id then [ps[0]] else []) + Naming(ps[1..], id)
  }

  /** The first of `x` and the list that is not `none`. */
  function FirstGiven<T(==)>(x: T, rest: seq<T>, none: T): (r: T)
    ensures x != none ==> r == x
    ensures r == none <==> x == none && forall i :: 0 <= i < |rest| ==> rest[i] == none
    ensures forall i | 0 <= i < |rest| && x == none && rest[i] != none
                       && (forall k :: 0 <= k < i ==> rest[k] == none) :: r == rest[i]
  {
    if x != none || rest == [] then x else FirstGiven(rest[0], rest[1..], none)
  }

  function Names(qs: seq<Payload>): seq<string> {
    seq(|qs|, i requires 0 <= i < |qs| => Strip(qs[i].displayName))
  }

  function Windows(qs: seq<Payload>): seq<int> {
    seq(|qs|, i requires 0 <= i < |qs| => qs[i].contextWindow)
  }

  function Images(qs: seq<Payload>): seq<Option<bool>> {
    seq(|qs|, i requires 0 <= i < |qs| => qs[i].supportsImage)
  }

  function LevelLists(qs: seq<Payload>): seq<seq<string>> {
    seq(|qs|, i requires 0 <= i < |qs| => Normalized(qs[i].levels))
  }

  function Levels(qs: seq<Payload>): seq<string> {
    seq(|qs|, i requires 0 <= i < |qs| => qs[i].level)
  }

  /** `f` is `e` with each empty field taken from the first payload that gives it. */
  ghost predicate FilledUp(e: Entry, f: Entry, qs: seq<Payload>) {
    && f.id == e.id && f.enabled == e.enabled && f.source == e.source
    && f.displayName == FirstGiven(e.displayName, Names(qs), "")
    && f.contextWindow == FirstGiven(e.contextWindow, Windows(qs), 0)
    && f.supportsImage == FirstGiven(e.supportsImage, Images(qs), None)
    && f.levels == FirstGiven(e.levels, LevelLists(qs), [])
    && f.level == FirstGiven(e.level, Levels(qs), "")
  }

  lemma {:induction false} FilledUpCons(e: Entry, f: Entry, p: Payload, qs: seq<Payload>)
    requires FilledUp(Filled(e, p), f, qs)
    ensures FilledUp(e, f, [p] + qs)
  {
    ListsCons(p, qs);
  }

  lemma {:induction false} ListsCons(p: Payload, qs: seq<Payload>)
    ensures Names([p] + qs) == [Strip(p.displayName)] + Names(qs)
    ensures Windows([p] + qs) == [p.contextWindow] + Windows(qs)
    ensures Images([p] + qs) == [p.supportsImage] + Images(qs)
    ensures LevelLists([p] + qs) == [Normalized(p.levels)] + LevelLists(qs)
    ensures Levels([p] + qs) == [p.level] + Levels(qs)
  {
    assert Names([p] + qs) == [Strip(p.displayName)] + Names(qs);
    assert Windows([p] + qs) == [p.contextWindow] + Windows(qs);
    assert Images([p] + qs) == [p.supportsImage] + Images(qs);
    assert LevelLists([p] + qs) == [Normalized(p.levels)] + LevelLists(qs);
    assert Levels([p] + qs) == [p.level] + Levels(qs);
  }

  /** A model that is in the list keeps what it has and gets each field it lacks from the first payload
      that names it and gives the field. */
  lemma {:induction false} KnownModelIsFilled(ms: seq<Entry>, ps: seq<Payload>, batch: string, i: nat)
    requires i < |ms| && Find(ms, ms[i].id) == i && ms[i].id != ""
    ensures i < |AddAll(ms, ps, batch)| && FilledUp(ms[i], AddAll(ms, ps, batch)[i], Naming(ps, ms[i].id))
    decreases |ps|
  {
    if ps != [] {
      var id, m1, rest := ms[i].id, AddOne(ms, ps[0], batch), Naming(ps[1..], ms[i].id);
      OneAdded(ms, ps[0], batch, i);
      KnownModelIsFilled(m1, ps[1..], batch, i);
      if Strip(ps[0].id) == id {
        FilledUpCons(ms[i], AddAll(m1, ps[1..], batch)[i], ps[0], rest);
      } else {
        assert [] + rest == rest;
      }
    }
  }

  /** One payload: the model it names is filled in, and every other model is as it was. */
  lemma {:induction false} OneAdded(ms: seq<Entry>, p: Payload, batch: string, i: nat)
    requires i < |ms| && Find(ms, ms[i].id) == i && ms[i].id != ""
    ensures var r := AddOne(ms, p, batch);
            && i < |r| && r[i].id == ms[i].id && Find(r, r[i].id) == i
            && r[i] == if Strip(p.id) == ms[i].id then Filled(ms[i], p) else ms[i]
  {
    var r := AddOne(ms, p, batch);
    AddOneKeeps(ms, p, batch);
    assert KeepsSettings(ms[i], r[i]);
    forall k | 0 <= k < i ensures r[k].id != r[i].id { assert KeepsSettings(ms[k], r[k]); }
  }

  function NameOf(s: Source): string {
    match s
    case Builtin => "builtin"
    case Manual => "manual"
    case Fetched => "fetched"
  }

  /** The payload as a new model reads it: a window that is not positive counts as not given. */
  function AsNew(p: Payload): Payload {
    p.(contextWindow := if p.contextWindow > 0 then p.contextWindow else 0)
  }

  /** A new model is switched on or off by the first payload that names it, takes each field from the
      first of them that gives it, and its source from the first one's own name for it, else from the
      batch's, else `manual`. */
  lemma {:induction false} NewModelIsFilled(ms: seq<Entry>, ps: seq<Payload>, batch: string, id: string)
    requires id != "" && id !in IdSet(ms) && Mentioned(ps, id)
    ensures var r := AddAll(ms, ps, batch); var qs := Naming(ps, id);
            && qs != [] && |ms| <= Find(r, id) < |r|
            && var f := r[Find(r, id)];
               && FilledUp(Entry(id, "", qs[0].enabled, 0, None, [], "", f.source), f, [AsNew(qs[0])] + qs[1..])
               && (NameOf(f.source) == qs[0].source
                   || ((forall s :: NameOf(s) != qs[0].source)
                       && (NameOf(f.source) == batch || ((forall s :: NameOf(s) != batch) && f.source == Manual))))
    decreases |ps|
  {
    MentionedCons(ps, id);
    if Strip(ps[0].id) == id {
      FirstNamed(ms, ps, batch);
      SourceIsNamed(ps[0].source, batch);
      assert ([ps[0]] + Naming(ps[1..], id))[1..] == Naming(ps[1..], id);
    } else {
      AddOneKeeps(ms, ps[0], batch);
      NewModelIsFilled(AddOne(ms, ps[0], batch), ps[1..], batch, id);
      assert [] + Naming(ps[1..], id) == Naming(ps[1..], id);
    }
  }

  /** The first payload that names it makes the entry, and the later ones fill it up. */
  lemma {:induction false} FirstNamed(ms: seq<Entry>, ps: seq<Payload>, batch: string)
    requires ps != [] && Strip(ps[0].id) != "" && Strip(ps[0].id) !in IdSet(ms)
    ensures var id, r := Strip(ps[0].id), AddAll(ms, ps, batch); var source := EntrySource(ps[0].source, batch);
            && |ms| == Find(r, id) < |r| && r[|ms|].source == source
            && FilledUp(Entry(id, "", ps[0].enabled, 0, None, [], "", source), r[|ms|],
                        [AsNew(ps[0])] + Naming(ps[1..], id))
  {
    var e, r := NewEntry(ps[0], batch), AddAll(ms, ps, batch);
    var m1 := ms + [e];
    FindFails(ms, e.id);
    assert AddOne(ms, ps[0], batch) == m1 && m1[|ms|] == e;
    AppendedIsFound(ms, e, m1) by { assert forall x: Entry :: KeepsSettings(x, x); }
    AddKeeps(m1, ps[1..], batch);
    AppendedIsFound(ms, e, r);
    KnownModelIsFilled(m1, ps[1..], batch, |ms|);
    NewIsFilled(ps[0], batch);
    FilledUpCons(Entry(e.id, "", e.enabled, 0, None, [], "", e.source), r[|ms|], AsNew(ps[0]), Naming(ps[1..], e.id));
  }

  lemma {:induction false} NewIsFilled(p: Payload, batch: string)
    ensures var e := NewEntry(p, batch); Filled(Entry(e.id, "", e.enabled, 0, None, [], "", e.source), AsNew(p)) == e
  {
  }

  lemma {:induction false} SourceIsNamed(own: string, batch: string)
    ensures var s := EntrySource(own, batch);
            || NameOf(s) == own
            || ((forall t :: NameOf(t) != own)
                && (NameOf(s) == batch || ((forall t :: NameOf(t) != batch) && s == Manual)))
  {
    NamedSource(own);
    NamedSource(batch);
  }

  lemma {:induction false} NamedSource(name: string)
    ensures match SourceNamed(name)
            case Some(s) => NameOf(s) == name
            case None => forall t :: NameOf(t) != name
  {
    if SourceNamed(name).None? {
      assert name != "builtin" && name != "manual" && name != "fetched";
    }
  }

  // ---------- reorder ----------

  function IndexOfLast(ms: seq<Entry>, id: string): (k: int)
    ensures -1 <= k < |ms|
    ensures k >= 0 ==> ms[k].id == id
    ensures k < 0 ==> forall i :: 0 <= i < |ms| ==> ms[i].id != id
  {
    if ms == [] then -1
    else if ms[|ms| - 1].id == id then |ms| - 1
    else IndexOfLast(ms[..|ms| - 1], id)
  }

  lemma {:induction false} IndexOfLastNext(ms: seq<Entry>, i: nat, id: string)
    requires i < |ms|
    ensures IndexOfLast(ms[..i + 1], id) == if id == ms[i].id then i else IndexOfLast(ms[..i], id)
  {
    assert ms[..i + 1][..i] == ms[..i];
  }

  /** The entries of the listed ids, first mention first; `by_id` keeps the last entry of an id. */
  function Picked(ms: seq<Entry>, order: seq<string>, used: set<string>): seq<Entry>
    decreases |order|
  {
    if order == [] then []
    else
      var k := IndexOfLast(ms, order[0]);
      if order[0] != "" && k >= 0 && order[0] !in used then [ms[k]] + Picked(ms, order[1..], used + {order[0]})
      else Picked(ms, order[1..], used)
  }

  function NotUsed(ms: seq<Entry>, used: set<string>): (r: seq<Entry>)
    ensures forall e :: e in r <==> e in ms && e.id !in used
  {
    if ms == [] then [] else (if ms[0].id !in used then [ms[0]] else []) + NotUsed(ms[1..], used)
  }

  function Reordered(ms: seq<Entry>, order: seq<string>): seq<Entry> {
    var front := Picked(ms, order, {});
    front + NotUsed(ms, IdSet(front))
  }

  lemma {:induction false} PickedFacts(ms: seq<Entry>, order: seq<string>, used: set<string>)
    ensures var r := Picked(ms, order, used); Unique(r) && forall e :: e in r ==> e in ms && e.id !in used
    decreases |order|
  {
    if order != [] {
      var k := IndexOfLast(ms, order[0]);
      if order[0] != "" && k >= 0 && order[0] !in used {
        var rest := Picked(ms, order[1..], used + {order[0]});
        PickedFacts(ms, order[1..], used + {order[0]});
        forall i | 0 <= i < |rest| ensures rest[i].id != order[0] { assert rest[i] in rest; }
      } else {
        PickedFacts(ms, order[1..], used);
      }
    }
  }

  lemma {:induction false} PickedIds(ms: seq<Entry>, order: seq<string>, used: set<string>)
    ensures Ids(Picked(ms, order, used)) == FirstMentions(order, IdSet(ms), used)
    decreases |order|
  {
    if order != [] {
      var k := IndexOfLast(ms, order[0]);
      assert k >= 0 <==> order[0] in IdSet(ms);
      if order[0] != "" && k >= 0 && order[0] !in used {
        var rest := Picked(ms, order[1..], used + {order[0]});
        PickedIds(ms, order[1..], used + {order[0]});
        assert Ids([ms[k]] + rest) == [ms[k].id] + Ids(rest);
      } else {
        PickedIds(ms, order[1..], used);
      }
    }
  }

  lemma {:induction false} NotUsedUnique(ms: seq<Entry>, used: set<string>)
    requires Unique(ms)
    ensures Unique(NotUsed(ms, used))
    decreases |ms|
  {
    if ms != [] {
      NotUsedUnique(ms[1..], used);
      var rest := NotUsed(ms[1..], used);
      forall i | 0 <= i < |rest| ensures rest[i].id != ms[0].id { assert rest[i] in rest; assert rest[i] in ms[1..]; }
    }
  }

  lemma {:induction false} ReorderedUnique(ms: seq<Entry>, order: seq<string>)
    requires Unique(ms)
    ensures Unique(Reordered(ms, order))
    ensures forall e :: e in Reordered(ms, order) <==> e in ms
  {
    var front := Picked(ms, order, {});
    var back := NotUsed(ms, IdSet(front));
    PickedFacts(ms, order, {});
    NotUsedUnique(ms, IdSet(front));
    forall i, j | 0 <= i < |front| && 0 <= j < |back| ensures front[i].id != back[j].id {
      assert back[j] in back;
      assert front[i].id in IdSet(front);
    }
    forall e ensures e in front + back <==> e in ms {
      if e in ms && e.id in IdSet(front) {
        var i :| 0 <= i < |front| && front[i].id == e.id;
        assert front[i] in front;
        assert front[i] in ms;
        SameIdSameEntry(ms, front[i], e);
      }
    }
  }

  lemma {:induction false} SameIdSameEntry(ms: seq<Entry>, e: Entry, f: Entry)
    requires Unique(ms) && e in ms && f in ms && e.id == f.id
    ensures e == f
  {
    var i :| 0 <= i < |ms| && ms[i] == e;
    var j :| 0 <= j < |ms| && ms[j] == f;
    assert !(i < j) && !(j < i);
  }

  lemma {:induction false} UniqueMultiset(ms: seq<Entry>, e: Entry)
    requires Unique(ms)
    ensures multiset(ms)[e] == if e in ms then 1 else 0
    decreases |ms|
  {
    if ms != [] {
      UniqueMultiset(ms[1..], e);
      assert ms == [ms[0]] + ms[1..];
    }
  }

  lemma {:induction false} SameEntriesPermute(ms: seq<Entry>, r: seq<Entry>)
    requires Unique(ms) && Unique(r) && forall e :: e in r <==> e in ms
    ensures multiset(r) == multiset(ms)
  {
    forall e ensures multiset(r)[e] == multiset(ms)[e] { UniqueMultiset(r, e); UniqueMultiset(ms, e); }
  }

  /** Reordering is a permutation that puts the listed models first, in order of first mention, and
      keeps the others after them in the order they had. */
  lemma {:induction false} ReorderArranges(ms: seq<Entry>, order: seq<string>)
    requires Unique(ms)
    ensures var r := Reordered(ms, order); var listed := FirstMentions(order, IdSet(ms), {});
            && multiset(r) == multiset(ms)
            && listed <= Ids(r)
            && (forall id :: id in listed <==> id in order && id != "" && id in IdSet(ms))
            && (forall i, j :: 0 <= i < j < |listed| ==> FirstPlace(order, listed[i]) < FirstPlace(order, listed[j]))
            && r[|listed|..] == NotUsed(ms, set id | id in listed)
  {
    FirstMentionsFacts(order, IdSet(ms), {});
    MentionsInOrder(order, IdSet(ms), {});
    var front, r := Picked(ms, order, {}), Reordered(ms, order);
    PickedIds(ms, order, {});
    ReorderedUnique(ms, order);
    SameEntriesPermute(ms, r);
    FrontOfIds(front, NotUsed(ms, IdSet(front)));
    IdSetOfIds(front);
  }

  lemma {:induction false} FrontOfIds(front: seq<Entry>, back: seq<Entry>)
    ensures Ids(front) <= Ids(front + back) && (front + back)[|Ids(front)|..] == back
  {
  }

  lemma {:induction false} IdSetOfIds(ms: seq<Entry>)
    ensures IdSet(ms) == set id | id in Ids(ms)
  {
    forall id ensures id in IdSet(ms) <==> id in Ids(ms) {
      if id in IdSet(ms) { var i :| 0 <= i < |ms| && ms[i].id == id; assert Ids(ms)[i] == id; }
    }
  }

  lemma {:induction false} PickedSame(ms: seq<Entry>, ns: seq<Entry>, order: seq<string>, used: set<string>)
    requires Unique(ms) && Unique(ns) && forall e :: e in ms <==> e in ns
    ensures Picked(ms, order, used) == Picked(ns, order, used)
    decreases |order|
  {
    if order != [] {
      var i, j := IndexOfLast(ms, order[0]), IndexOfLast(ns, order[0]);
      assert i >= 0 ==> ms[i] in ns;
      assert j >= 0 ==> ns[j] in ms;
      if i >= 0 { SameIdSameEntry(ms, ms[i], ns[j]); }
      PickedSame(ms, ns, order[1..], used);
      PickedSame(ms, ns, order[1..], used + {order[0]});
    }
  }

  lemma {:induction false} NotUsedAll(ms: seq<Entry>, used: set<string>)
    requires forall e :: e in ms ==> e.id !in used
    ensures NotUsed(ms, used) == ms
    decreases |ms|
  {
    if ms != [] {
      assert ms[0] in ms && forall e :: e in ms[1..] ==> e in ms;
      NotUsedAll(ms[1..], used);
    }
  }

  lemma {:induction false} NotUsedAppend(a: seq<Entry>, b: seq<Entry>, used: set<string>)
    ensures NotUsed(a + b, used) == NotUsed(a, used) + NotUsed(b, used)
    decreases |a|
  {
    if a == [] {
      assert a + b == b;
    } else {
      assert (a + b)[1..] == a[1..] + b;
      NotUsedAppend(a[1..], b, used);
    }
  }

  lemma {:induction false} NotUsedNone(ms: seq<Entry>, used: set<string>)
    requires forall e :: e in ms ==> e.id in used
    ensures NotUsed(ms, used) == []
    decreases |ms|
  {
    if ms != [] {
      assert ms[0] in ms && forall e :: e in ms[1..] ==> e in ms;
      NotUsedNone(ms[1..], used);
    }
  }

  lemma {:induction false} NotUsedAgain(front: seq<Entry>, ms: seq<Entry>, used: set<string>)
    requires used == IdSet(front)
    ensures NotUsed(front + NotUsed(ms, used), used) == NotUsed(ms, used)
  {
    var back := NotUsed(ms, used);
    forall e | e in front ensures e.id in used { var i :| 0 <= i < |front| && front[i] == e; }
    NotUsedAppend(front, back, used);
    NotUsedNone(front, used);
    NotUsedAll(back, used);
  }

  /** Reordering twice by the same list is reordering once. */
  lemma {:induction false} ReorderIdempotent(ms: seq<Entry>, order: seq<string>)
    requires Unique(ms)
    ensures Reordered(Reordered(ms, order), order) == Reordered(ms, order)
  {
    ReorderedUnique(ms, order);
    PickedSame(ms, Reordered(ms, order), order, {});
    var front := Picked(ms, order, {});
    NotUsedAgain(front, ms, IdSet(front));
  }

  // ---------- delete ----------

  function EnabledIds(ms: seq<Entry>, includeDisabled: bool): (r: seq<string>)
    ensures forall id :: id in r ==> id != "" && id in IdSet(ms)
  {
    if ms == [] then []
    else
      (if ms[0].id != "" && (includeDisabled || ms[0].enabled) then [ms[0].id] else [])
      + EnabledIds(ms[1..], includeDisabled)
  }

  /** The provider's list, its legacy `model` field, and the global selection. */
  datatype Catalogue = Catalogue(models: seq<Entry>, legacy: string, selectedProvider: string, selectedModel: string)

  /** The first enabled id, else the first id at all, else none. */
  function Fallback(ms: seq<Entry>): string {
    var enabled := EnabledIds(ms, false);
    var usable := if enabled != [] then enabled else EnabledIds(ms, true);
    if usable != [] then usable[0] else ""
  }

  function Deleted(c: Catalogue, provider: string, id: string): Catalogue {
    var rest := NotUsed(c.models, {id});
    if !(c.selectedProvider == provider && c.selectedModel == id) then c.(models := rest)
    else Catalogue(rest, c.legacy, if Fallback(rest) != "" then provider else "", Fallback(rest))
  }

  lemma {:induction false} TakenOut(ms: seq<Entry>, id: string)
    requires Unique(ms) && Find(ms, id) < |ms|
    ensures var k := Find(ms, id); NotUsed(ms, {id}) == ms[..k] + ms[k + 1..]
    decreases |ms|
  {
    if ms[0].id == id {
      HeadTakenOut(ms);
    } else {
      var k := Find(ms[1..], id);
      assert Find(ms, id) == k + 1;
      TakenOut(ms[1..], id);
      SplitShift(ms, k);
      HeadStays(ms, id);
    }
  }

  lemma {:induction false} HeadTakenOut(ms: seq<Entry>)
    requires Unique(ms) && ms != []
    ensures Find(ms, ms[0].id) == 0 && NotUsed(ms, {ms[0].id}) == ms[..0] + ms[1..]
  {
    forall e | e in ms[1..] ensures e.id !in {ms[0].id} {
      var i :| 0 <= i < |ms| - 1 && ms[1..][i] == e;
      assert ms[i + 1] == e;
    }
    NotUsedAll(ms[1..], {ms[0].id});
    assert [] + ms[1..] == ms[1..] == ms[..0] + ms[1..];
  }

  lemma {:induction false} HeadStays(ms: seq<Entry>, id: string)
    requires ms != [] && ms[0].id != id
    ensures NotUsed(ms, {id}) == [ms[0]] + NotUsed(ms[1..], {id})
  {
  }

  lemma {:induction false} SplitShift(ms: seq<Entry>, k: nat)
    requires k + 1 < |ms|
    ensures [ms[0]] + (ms[1..][..k] + ms[1..][k + 1..]) == ms[..k + 1] + ms[k + 2..]
  {}

  lemma {:induction false} AnyUsable(ms: seq<Entry>)
    ensures EnabledIds(ms, true) == [] ==> forall e :: e in ms ==> e.id == ""
    decreases |ms|
  {
    if ms != [] { AnyUsable(ms[1..]); }
  }

  /** Where the selection goes when the selected model is deleted: to the first enabled model with an id,
      else to the first model with an id, else to nothing. It never names the deleted model. */
  lemma {:induction false} SelectionMoves(c: Catalogue, provider: string, id: string)
    requires c.selectedProvider == provider && c.selectedModel == id && id != ""
    ensures var d := Deleted(c, provider, id);
            && d.selectedModel != id
            && (d.selectedModel == "" <==> forall e :: e in d.models ==> e.id == "")
            && (d.selectedModel == "" ==> d.selectedProvider == "")
            && (d.selectedModel != "" ==> d.selectedProvider == provider && d.selectedModel in IdSet(d.models))
  {
    var rest := NotUsed(c.models, {id});
    AnyUsable(rest);
    EnabledAmongAll(rest);
    if EnabledIds(rest, false) != [] { assert EnabledIds(rest, false)[0] in EnabledIds(rest, false); }
    if EnabledIds(rest, true) != [] { assert EnabledIds(rest, true)[0] in EnabledIds(rest, true); }
    forall x | x in IdSet(rest) ensures x != id && exists e :: e in rest && e.id == x {
      var i :| 0 <= i < |rest| && rest[i].id == x;
      assert rest[i] in rest;
    }
  }

  /** Which model is selected instead: the first enabled one with an id, if there is one, and otherwise the
      first one with an id. */
  lemma {:induction false} SelectionPrefersEnabled(c: Catalogue, provider: string, id: string, k: nat)
    requires c.selectedProvider == provider && c.selectedModel == id
    requires var rest := Deleted(c, provider, id).models;
             && k < |rest| && rest[k].id != ""
             && (rest[k].enabled || forall j :: 0 <= j < |rest| && rest[j].enabled ==> rest[j].id == "")
             && (forall j :: 0 <= j < k && (rest[j].enabled || !rest[k].enabled) ==> rest[j].id == "")
    ensures Deleted(c, provider, id).selectedModel == Deleted(c, provider, id).models[k].id
  {
    var rest := NotUsed(c.models, {id});
    if rest[k].enabled { FirstOfEnabled(rest, k, false); } else {
      NoneEnabled(rest);
      FirstOfEnabled(rest, k, true);
    }
  }

  lemma {:induction false} FirstOfEnabled(ms: seq<Entry>, k: nat, includeDisabled: bool)
    requires k < |ms| && ms[k].id != "" && (includeDisabled || ms[k].enabled)
    requires forall j :: 0 <= j < k && (includeDisabled || ms[j].enabled) ==> ms[j].id == ""
    ensures EnabledIds(ms, includeDisabled) != [] && EnabledIds(ms, includeDisabled)[0] == ms[k].id
    decreases |ms|
  {
    if k > 0 { FirstOfEnabled(ms[1..], k - 1, includeDisabled); }
  }

  lemma {:induction false} NoneEnabled(ms: seq<Entry>)
    requires forall j :: 0 <= j < |ms| && ms[j].enabled ==> ms[j].id == ""
    ensures EnabledIds(ms, false) == []
    decreases |ms|
  {
    if ms != [] {
      assert forall j :: 0 <= j < |ms[1..]| ==> ms[1..][j] == ms[j + 1];
      NoneEnabled(ms[1..]);
    }
  }

  lemma {:induction false} EnabledAmongAll(ms: seq<Entry>)
    ensures EnabledIds(ms, true) == [] ==> EnabledIds(ms, false) == []
    decreases |ms|
  {
    if ms != [] { EnabledAmongAll(ms[1..]); }
  }

  /** Deleting takes out exactly the entry with that id, and the selection does not name it afterwards
      unless it named that model under another provider. */
  lemma {:induction false} DeleteRemovesOne(c: Catalogue, provider: string, id: string)
    requires Unique(c.models) && id in IdSet(c.models) && id != ""
    ensures var d := Deleted(c, provider, id); var k := Find(c.models, id);
            && k < |c.models| && d.models == c.models[..k] + c.models[k + 1..]
            && !(d.selectedProvider == provider && d.selectedModel == id)
  {
    TakenOut(c.models, id);
    if c.selectedProvider == provider && c.selectedModel == id { SelectionMoves(c, provider, id); }
  }

  // ---------- runs ----------

  /** `Load` is a start of the program: the stored configuration goes through the migration. */
  datatype Edit = Add(payloads: seq<Payload>, source: string) | Reorder(order: seq<string>) | Delete(id: string) | Load

  /** The migration: the legacy model and the selected one get entries if they have none. */
  function Migrated(c: Catalogue, provider: string): Catalogue {
    var ms := Ensured(c.models, c.legacy);
    c.(models := if Strip(c.selectedProvider) == provider then Ensured(ms, c.selectedModel) else ms)
  }

  function Edited(c: Catalogue, provider: string, e: Edit): Catalogue {
    match e
    case Add(ps, source) => Migrated(c.(models := AddAll(c.models, ps, source)), provider)
    case Reorder(order) => c.(models := Reordered(c.models, order))
    case Delete(id) => if id in IdSet(c.models) then Deleted(c, provider, id) else c
    case Load => Migrated(c, provider)
  }

  function AfterEdits(c: Catalogue, provider: string, es: seq<Edit>): Catalogue
    decreases |es|
  {
    if es == [] then c else AfterEdits(Edited(c, provider, es[0]), provider, es[1..])
  }

  /** A selection of this provider names one of its models. */
  ghost predicate SelectionNamesModel(c: Catalogue, provider: string) {
    c.selectedProvider == provider && c.selectedModel != "" ==> c.selectedModel in IdSet(c.models)
  }

  lemma {:induction false} IdsOfEntries(ms: seq<Entry>, id: string)
    ensures id in IdSet(ms) <==> exists e :: e in ms && e.id == id
  {
    if id in IdSet(ms) { var i :| 0 <= i < |ms| && ms[i].id == id; assert ms[i] in ms; }
  }

  /** The selected model as the migration sees it. */
  function Selected(c: Catalogue, provider: string): string {
    if Strip(c.selectedProvider) == provider then Strip(c.selectedModel) else ""
  }

  /** The migration keeps every entry and adds exactly the legacy model and the selected one. */
  lemma {:induction false} MigrationKeeps(c: Catalogue, provider: string)
    ensures var r := Migrated(c, provider);
            && r == c.(models := r.models) && c.models <= r.models
            && (Unique(c.models) ==> Unique(r.models))
            && (forall id :: id in IdSet(r.models) <==>
                  id in IdSet(c.models) || (id != "" && (id == Strip(c.legacy) || id == Selected(c, provider))))
  {
    var ms := Ensured(c.models, c.legacy);
    EnsuredKeeps(c.models, c.legacy);
    EnsuredKeeps(ms, c.selectedModel);
    ExtendsTrans(c.models, ms, Ensured(ms, c.selectedModel));
  }

  /** Migrating again changes nothing. */
  lemma {:induction false} MigratedTwice(c: Catalogue, provider: string)
    ensures Migrated(Migrated(c, provider), provider) == Migrated(c, provider)
  {
    var r := Migrated(c, provider);
    MigrationKeeps(c, provider);
    FindFails(r.models, Strip(c.legacy));
    FindFails(r.models, Strip(c.selectedModel));
  }

  lemma {:induction false} EditKeepsSelection(c: Catalogue, provider: string, e: Edit)
    requires Unique(c.models) && SelectionNamesModel(c, provider)
    ensures SelectionNamesModel(Edited(c, provider, e), provider)
  {
    var r, id := Edited(c, provider, e).models, c.selectedModel;
    match e
    case Add(ps, source) =>
      AddKeeps(c.models, ps, source);
      MigrationKeeps(c.(models := AddAll(c.models, ps, source)), provider);
    case Reorder(order) =>
      IdsOfEntries(c.models, id);
      IdsOfEntries(r, id);
      ReorderedUnique(c.models, order);
    case Delete(gone) =>
      IdsOfEntries(c.models, id);
      IdsOfEntries(r, id);
      if c.selectedProvider == provider && id == gone && gone in IdSet(c.models) {
        if id != "" { SelectionMoves(c, provider, gone); } else { FallbackIsThere(r); }
      }
    case Load => MigrationKeeps(c, provider);
  }

  lemma {:induction false} FallbackIsThere(ms: seq<Entry>)
    ensures Fallback(ms) != "" ==> Fallback(ms) in IdSet(ms)
  {
    if EnabledIds(ms, false) != [] { assert EnabledIds(ms, false)[0] in EnabledIds(ms, false); }
    if EnabledIds(ms, true) != [] { assert EnabledIds(ms, true)[0] in EnabledIds(ms, true); }
  }

  /** Through any run of edits ids stay unique, and a selection that named a model still does, whatever
      was deleted. */
  lemma {:induction false} EditsKeepCatalogue(c: Catalogue, provider: string, es: seq<Edit>)
    requires Unique(c.models)
    ensures Unique(AfterEdits(c, provider, es).models)
    ensures SelectionNamesModel(c, provider) ==> SelectionNamesModel(AfterEdits(c, provider, es), provider)
    decreases |es|
  {
    if es != [] {
      match es[0] {
        case Add(ps, source) =>
          AddKeeps(c.models, ps, source);
          MigrationKeeps(c.(models := AddAll(c.models, ps, source)), provider);
        case Reorder(order) => ReorderedUnique(c.models, order);
        case Delete(id) => NotUsedUnique(c.models, {id});
        case Load => MigrationKeeps(c, provider);
      }
      if SelectionNamesModel(c, provider) { EditKeepsSelection(c, provider, es[0]); }
      EditsKeepCatalogue(Edited(c, provider, es[0]), provider, es[1..]);
    }
  }

  /** Adding: the list `AddAll` leaves stays in front, only the legacy and the selected model may come
      after it, and nothing else changes. */
  lemma {:induction false} AddDoes(c: Catalogue, provider: string, ps: seq<Payload>, source: string)
    ensures var d := Edited(c, provider, Add(ps, source));
            && d == c.(models := d.models) && AddAll(c.models, ps, source) <= d.models
            && Extends(c.models, d.models) && (Unique(c.models) ==> Unique(d.models))
            && (forall id :: id in IdSet(d.models) <==>
                  || id in IdSet(c.models)
                  || (id != "" && (Mentioned(ps, id) || id == Strip(c.legacy) || id == Selected(c, provider))))
  {
    var added := c.(models := AddAll(c.models, ps, source));
    AddKeeps(c.models, ps, source);
    MigrationKeeps(added, provider);
    PrefixExtends(c.models, added.models, Edited(c, provider, Add(ps, source)).models);
  }

  /** Reordering: the listed models come first, in the order of their first mention, the others keep their
      order behind them, and nothing else changes. */
  lemma {:induction false} ReorderDoes(c: Catalogue, provider: string, order: seq<string>)
    requires Unique(c.models)
    ensures var d := Edited(c, provider, Reorder(order)); var listed := FirstMentions(order, IdSet(c.models), {});
            && d == c.(models := d.models) && multiset(d.models) == multiset(c.models)
            && listed <= Ids(d.models) && d.models[|listed|..] == NotUsed(c.models, set id | id in listed)
            && (forall id :: id in listed <==> id in order && id != "" && id in IdSet(c.models))
            && (forall i, j :: 0 <= i < j < |listed| ==> FirstPlace(order, listed[i]) < FirstPlace(order, listed[j]))
  {
    ReorderArranges(c.models, order);
  }

  /** Deleting: an id that is not there changes nothing; one that is there takes its entry out, and the
      selection moves only if it named that model. */
  lemma {:induction false} DeleteDoes(c: Catalogue, provider: string, id: string)
    requires Unique(c.models)
    ensures var d := Edited(c, provider, Delete(id)); var k := Find(c.models, id);
            && (id !in IdSet(c.models) ==> d == c)
            && (id in IdSet(c.models) ==> k < |c.models| && d.models == c.models[..k] + c.models[k + 1..])
            && d.legacy == c.legacy
            && (!(c.selectedProvider == provider && c.selectedModel == id) ==> d == c.(models := d.models))
  {
    FindFails(c.models, id);
    if id in IdSet(c.models) { TakenOut(c.models, id); }
  }

  lemma {:induction false} PrefixExtends(a: seq<Entry>, b: seq<Entry>, c: seq<Entry>)
    requires Extends(a, b) && b <= c
    ensures Extends(a, c)
  {
    forall i | 0 <= i < |a| ensures KeepsSettings(a[i], c[i]) { assert c[i] == b[i]; }
  }

  // ---------- deleted models ----------

  /** Ids and selection carry no blanks around them, and the selection names a model of the list. */
  ghost predicate Tidy(c: Catalogue, provider: string) {
    && Unique(c.models)
    && (forall id :: id in IdSet(c.models) ==> id != "" && Strip(id) == id)
    && Strip(c.selectedProvider) == c.selectedProvider && Strip(c.selectedModel) == c.selectedModel
    && SelectionNamesModel(c, provider)
  }

  /** The edit brings a model with this id back into the list. */
  predicate Brings(legacy: string, e: Edit, id: string) {
    match e
    case Add(ps, _) => Mentioned(ps, id) || id == Strip(legacy)
    case Load => id == Strip(legacy)
    case _ => false
  }

  lemma {:induction false} MentionedIsStripped(ps: seq<Payload>, id: string)
    requires Mentioned(ps, id)
    ensures Strip(id) == id
  {
    var i :| 0 <= i < |ps| && Strip(ps[i].id) == id;
    StripTwice(ps[i].id);
  }

  lemma {:induction false} MigrationTidy(c: Catalogue, provider: string)
    requires Unique(c.models) && SelectionNamesModel(c, provider)
    requires forall id :: id in IdSet(c.models) ==> id != "" && Strip(id) == id
    requires Strip(c.selectedProvider) == c.selectedProvider && Strip(c.selectedModel) == c.selectedModel
    ensures Tidy(Migrated(c, provider), provider)
    ensures forall id :: id in IdSet(Migrated(c, provider).models) <==>
                         id in IdSet(c.models) || (id != "" && id == Strip(c.legacy))
  {
    MigrationKeeps(c, provider);
    StripTwice(c.legacy);
  }

  lemma {:induction false} EditTidy(c: Catalogue, provider: string, e: Edit)
    requires Tidy(c, provider) && !e.Delete?
    ensures var r := Edited(c, provider, e);
            && Tidy(r, provider) && r.legacy == c.legacy
            && (forall id :: id in IdSet(r.models) <==> id in IdSet(c.models) || (id != "" && Brings(c.legacy, e, id)))
  {
    match e
    case Add(ps, source) =>
      AddKeeps(c.models, ps, source);
      forall id | Mentioned(ps, id) ensures Strip(id) == id { MentionedIsStripped(ps, id); }
      MigrationTidy(c.(models := AddAll(c.models, ps, source)), provider);
    case Reorder(order) =>
      ReorderedUnique(c.models, order);
      forall id ensures id in IdSet(Reordered(c.models, order)) <==> id in IdSet(c.models) {
        IdsOfEntries(c.models, id);
        IdsOfEntries(Reordered(c.models, order), id);
      }
    case Load => MigrationTidy(c, provider);
  }

  lemma {:induction false} DeletedIds(ms: seq<Entry>, gone: string)
    ensures forall id :: id in IdSet(NotUsed(ms, {gone})) <==> id in IdSet(ms) && id != gone
  {
    forall id ensures id in IdSet(NotUsed(ms, {gone})) <==> id in IdSet(ms) && id != gone {
      IdsOfEntries(ms, id);
      IdsOfEntries(NotUsed(ms, {gone}), id);
    }
  }

  lemma {:induction false} DeleteTidy(c: Catalogue, provider: string, gone: string)
    requires Tidy(c, provider)
    ensures var r := Edited(c, provider, Delete(gone));
            && Tidy(r, provider) && r.legacy == c.legacy
            && (forall id :: id in IdSet(r.models) <==> id in IdSet(c.models) && id != gone)
  {
    DeletedIds(c.models, gone);
    if gone in IdSet(c.models) {
      var rest := NotUsed(c.models, {gone});
      NotUsedUnique(c.models, {gone});
      FallbackIsThere(rest);
      assert Strip("") == "";
      assert Strip(Fallback(rest)) == Fallback(rest);
      if c.selectedProvider == provider && c.selectedModel == gone {
        assert Deleted(c, provider, gone).selectedModel == Fallback(rest);
      } else {
        assert Deleted(c, provider, gone) == c.(models := rest);
      }
    }
  }

  /** Whatever is deleted, added, reordered or loaded: a model that is not in the list stays out of it
      all along a run if and only if no edit names it and, if it is the legacy model, none migrates. */
  lemma {:induction false} StaysAwayIff(c: Catalogue, provider: string, es: seq<Edit>, id: string)
    requires Tidy(c, provider) && id !in IdSet(c.models) && id != ""
    ensures (forall n :: 0 <= n <= |es| ==> id !in IdSet(AfterEdits(c, provider, es[..n]).models))
            <==> (forall i :: 0 <= i < |es| ==> !Brings(c.legacy, es[i], id))
    decreases |es|
  {
    if es == [] {
      assert es[..0] == [];
    } else {
      var next := Edited(c, provider, es[0]);
      match es[0] {
        case Delete(gone) => DeleteTidy(c, provider, gone);
        case _ => EditTidy(c, provider, es[0]);
      }
      assert id in IdSet(next.models) <==> Brings(c.legacy, es[0], id);
      assert es[..1] == [es[0]] && [es[0]][1..] == [];
      assert AfterEdits(c, provider, es[..1]) == next;
      if id !in IdSet(next.models) {
        StaysAwayIff(next, provider, es[1..], id);
        PrefixesCons(c, provider, es, id);
        assert forall i :: 0 < i < |es| ==> es[i] == es[1..][i - 1];
      }
    }
  }

  lemma {:induction false} PrefixesCons(c: Catalogue, provider: string, es: seq<Edit>, id: string)
    requires es != [] && id !in IdSet(c.models)
    ensures (forall n :: 0 <= n <= |es| ==> id !in IdSet(AfterEdits(c, provider, es[..n]).models))
            <==> (forall n :: 0 <= n < |es| ==>
                    id !in IdSet(AfterEdits(Edited(c, provider, es[0]), provider, es[1..][..n]).models))
  {
    var next := Edited(c, provider, es[0]);
    forall n | 0 <= n < |es|
      ensures AfterEdits(next, provider, es[1..][..n]) == AfterEdits(c, provider, es[..n + 1])
    {
      assert es[..n + 1] == [es[0]] + es[1..][..n];
    }
    assert es[..0] == [];
    if forall n :: 0 <= n < |es| ==> id !in IdSet(AfterEdits(next, provider, es[1..][..n]).models) {
      forall n | 0 <= n <= |es| ensures id !in IdSet(AfterEdits(c, provider, es[..n]).models) {
        if n > 0 { assert id !in IdSet(AfterEdits(next, provider, es[1..][..n - 1]).models); }
      }
    }
  }

  lemma {:induction false} TidyMigrates(c: Catalogue, provider: string)
    requires Tidy(c, provider)
    ensures Migrated(c, provider).models == Ensured(c.models, c.legacy)
  {
    var ms := Ensured(c.models, c.legacy);
    EnsuredKeeps(c.models, c.legacy);
    if c.selectedProvider == provider && c.selectedModel != "" {
      FindFails(ms, c.selectedModel);
    }
  }

  /** A deleted legacy model is back after the next start, with default settings and the last place. */
  lemma {:induction false} DeletedLegacyReturns(c: Catalogue, provider: string)
    requires Tidy(c, provider) && Strip(c.legacy) in IdSet(c.models)
    ensures Edited(Edited(c, provider, Delete(Strip(c.legacy))), provider, Load).models
         == NotUsed(c.models, {Strip(c.legacy)}) + [Entry(Strip(c.legacy), "", true, 0, None, [], "", Manual)]
  {
    var d := Edited(c, provider, Delete(Strip(c.legacy)));
    DeleteTidy(c, provider, Strip(c.legacy));
    TidyMigrates(d, provider);
    LegacyReturns(c, provider, d);
  }

  lemma {:induction false} LegacyReturns(c: Catalogue, provider: string, d: Catalogue)
    requires Tidy(c, provider) && Strip(c.legacy) in IdSet(c.models)
    requires d == Edited(c, provider, Delete(Strip(c.legacy)))
    ensures Ensured(d.models, d.legacy)
         == NotUsed(c.models, {Strip(c.legacy)}) + [Entry(Strip(c.legacy), "", true, 0, None, [], "", Manual)]
  {
    DeletedIds(c.models, Strip(c.legacy));
    FindFails(d.models, Strip(c.legacy));
  }

  // ---------- the configuration object ----------

  lemma {:induction false} PickStep(ms: seq<Entry>, order: seq<string>, i: nat, used: set<string>, done: seq<Entry>)
    requires i < |order|
    ensures var k := IndexOfLast(ms, order[i]);
            done + Picked(ms, order[i..], used) ==
            if order[i] != "" && k >= 0 && order[i] !in used
            then done + [ms[k]] + Picked(ms, order[i + 1..], used + {order[i]})
            else done + Picked(ms, order[i + 1..], used)
  {
    assert order[i..][1..] == order[i + 1..];
  }

  lemma {:induction false} KeepStep(ms: seq<Entry>, i: nat, used: set<string>, done: seq<Entry>)
    requires i < |ms|
    ensures done + NotUsed(ms[i..], used) ==
            (if ms[i].id !in used then done + [ms[i]] else done) + NotUsed(ms[i + 1..], used)
  {
    assert ms[i..][1..] == ms[i + 1..];
  }

  /** The length test the code uses tells whether the id was there. */
  lemma {:induction false} ShorterIffPresent(ms: seq<Entry>, id: string)
    ensures |NotUsed(ms, {id})| <= |ms|
    ensures |NotUsed(ms, {id})| != |ms| <==> id in IdSet(ms)
    ensures |NotUsed(ms, {id})| == |ms| ==> NotUsed(ms, {id}) == ms
    decreases |ms|
  {
    if ms != [] {
      ShorterIffPresent(ms[1..], id);
      assert ms == [ms[0]] + ms[1..];
      IdSetCons(ms);
    }
  }

  lemma {:induction false} IdSetCons(ms: seq<Entry>)
    requires ms != []
    ensures IdSet(ms) == {ms[0].id} + IdSet(ms[1..])
  {
    forall id ensures id in IdSet(ms) <==> id in {ms[0].id} + IdSet(ms[1..]) {
      if id in IdSet(ms[1..]) { var i :| 0 <= i < |ms| - 1 && ms[1..][i].id == id; assert ms[i + 1].id == id; }
      if id in IdSet(ms) && id != ms[0].id {
        var i :| 0 <= i < |ms| && ms[i].id == id;
        assert ms[1..][i - 1].id == id;
      }
    }
  }

  class ProviderCatalogue {
    const provider: string
    const legacy: string
    var models: seq<Entry>
    var selectedProvider: string
    var selectedModel: string

    constructor (provider: string, models: seq<Entry>, legacy: string, selectedProvider: string, selectedModel: string)
      ensures this.provider == provider
      ensures View() == Catalogue(models, legacy, selectedProvider, selectedModel)
    {
      this.provider, this.legacy := provider, legacy;
      this.models, this.selectedProvider, this.selectedModel := models, selectedProvider, selectedModel;
    }

    function View(): Catalogue
      reads this
    {
      Catalogue(models, legacy, selectedProvider, selectedModel)
    }

    method EnsureModel(id: string)
      modifies this`models
      ensures models == Ensured(old(models), id)
    {
      var trimmed := Strip(id);
      if trimmed != "" && Find(models, trimmed) == |models| {
        models := models + [Entry(trimmed, "", true, 0, None, [], "", Manual)];
      }
    }

    /** `_migrate_provider_models` as far as it concerns this provider's list. */
    method Migrate()
      modifies this`models
      ensures View() == Edited(old(View()), provider, Load)
    {
      EnsureModel(legacy);
      if Strip(selectedProvider) == provider {
        EnsureModel(selectedModel);
      }
    }

    method FillEmptyFields(k: nat, p: Payload)
      requires k < |models|
      modifies this`models
      ensures models == old(models)[k := Filled(old(models)[k], p)]
    {
      var e := models[k];
      if p.displayName != "" && e.displayName == "" {
        e := e.(displayName := Strip(p.displayName));
      }
      if p.contextWindow != 0 && e.contextWindow == 0 {
        e := e.(contextWindow := p.contextWindow);
      }
      if p.supportsImage.Some? && e.supportsImage.None? {
        e := e.(supportsImage := p.supportsImage);
      }
      if p.levels != [] && e.levels == [] {
        var levels := NormalizeReasoningLevels(p.levels);
        e := e.(levels := levels);
      }
      if p.level != "" && e.level == "" {
        e := e.(level := p.level);
      }
      models := models[k := e];
    }

    method AddPayload(p: Payload, source: string)
      modifies this`models
      ensures models == AddOne(old(models), p, source)
    {
      var id := Strip(p.id);
      if id != "" {
        var k := Find(models, id);
        if k == |models| {
          var e := ToModelEntry(p, source);
          models := models + [e];
        } else {
          FillEmptyFields(k, p);
        }
      }
    }

    method AddModels(payloads: seq<Payload>, source: string)
      modifies this`models
      ensures View() == Edited(old(View()), provider, Add(payloads, source))
    {
      for i := 0 to |payloads|
        invariant AddAll(models, payloads[i..], source) == AddAll(old(models), payloads, source)
      {
        assert payloads[i..][1..] == payloads[i + 1..];
        AddPayload(payloads[i], source);
      }
      Migrate();
    }

    /** The dictionary `by_id`: a later entry of the same id replaces an earlier one. */
    method ById() returns (byId: map<string, Entry>)
      ensures forall id :: id in byId <==> IndexOfLast(models, id) >= 0
      ensures forall id :: id in byId ==> byId[id] == models[IndexOfLast(models, id)]
    {
      byId := map[];
      var i := 0;
      while i < |models|
        invariant 0 <= i <= |models|
        invariant forall id :: id in byId <==> IndexOfLast(models[..i], id) >= 0
        invariant forall id :: id in byId ==> byId[id] == models[IndexOfLast(models[..i], id)]
      {
        forall id
          ensures IndexOfLast(models[..i + 1], id) == if id == models[i].id then i else IndexOfLast(models[..i], id)
        {
          IndexOfLastNext(models, i, id);
        }
        byId := byId[models[i].id := models[i]];
        i := i + 1;
      }
      assert models[..i] == models;
    }

    method ReorderModels(order: seq<string>)
      modifies this
      ensures View() == Edited(old(View()), provider, Reorder(order))
    {
      var byId := ById();
      var reordered: seq<Entry> := [];
      var used: set<string> := {};
      var i := 0;
      while i < |order|
        invariant 0 <= i <= |order|
        invariant reordered + Picked(models, order[i..], used) == Picked(models, order, {})
        invariant used == IdSet(reordered)
        invariant models == old(models)
        invariant selectedProvider == old(selectedProvider) && selectedModel == old(selectedModel)
      {
        PickStep(models, order, i, used, reordered);
        if order[i] != "" && order[i] in byId && order[i] !in used {
          var e := byId[order[i]];
          IdSetSnoc(reordered, e);
          reordered := reordered + [e];
          used := used + {order[i]};
        }
        i := i + 1;
      }
      assert reordered == Picked(models, order, {});
      var j := 0;
      while j < |models|
        invariant 0 <= j <= |models|
        invariant reordered + NotUsed(models[j..], used) == Reordered(old(models), order)
        invariant models == old(models)
        invariant selectedProvider == old(selectedProvider) && selectedModel == old(selectedModel)
      {
        KeepStep(models, j, used, reordered);
        if models[j].id !in used {
          reordered := reordered + [models[j]];
        }
        j := j + 1;
      }
      models := reordered;
    }

    /** `found` is false where the request answers 404; nothing changes then. */
    method DeleteModel(id: string) returns (found: bool)
      modifies this
      ensures found <==> id in IdSet(old(models))
      ensures View() == Edited(old(View()), provider, Delete(id))
    {
      var rest := Without(id);
      ShorterIffPresent(models, id);
      found := |rest| != |models|;
      models := rest;
      if found && selectedProvider == provider && selectedModel == id {
        Reselect();
      }
    }

    method Without(id: string) returns (rest: seq<Entry>)
      ensures rest == NotUsed(models, {id})
    {
      rest := [];
      var i := 0;
      while i < |models|
        invariant 0 <= i <= |models|
        invariant rest + NotUsed(models[i..], {id}) == NotUsed(models, {id})
      {
        KeepStep(models, i, {id}, rest);
        if models[i].id != id {
          rest := rest + [models[i]];
        }
        i := i + 1;
      }
    }

    method Reselect()
      modifies this`selectedProvider, this`selectedModel
      ensures selectedModel == Fallback(models)
      ensures selectedProvider == if selectedModel != "" then old(selectedProvider) else ""
    {
      FallbackIsEmptyIff(models);
      var fallback := EnabledIds(models, false);
      if fallback == [] {
        fallback := EnabledIds(models, true);
      }
      if fallback != [] {
        selectedModel := fallback[0];
      } else {
        selectedModel, selectedProvider := "", "";
      }
    }
  }

  lemma {:induction false} FallbackIsEmptyIff(ms: seq<Entry>)
    ensures Fallback(ms) == "" <==> EnabledIds(ms, false) == [] && EnabledIds(ms, true) == []
  {
    if EnabledIds(ms, false) != [] { assert EnabledIds(ms, false)[0] in EnabledIds(ms, false); }
    if EnabledIds(ms, true) != [] { assert EnabledIds(ms, true)[0] in EnabledIds(ms, true); }
  }

  lemma {:induction false} IdSetSnoc(ms: seq<Entry>, e: Entry)
    ensures IdSet(ms + [e]) == IdSet(ms) + {e.id}
  {
    forall id ensures id in IdSet(ms + [e]) <==> id in IdSet(ms) + {e.id} {
      if id in IdSet(ms) { var i :| 0 <= i < |ms| && ms[i].id == id; assert (ms + [e])[i].id == id; }
      if id == e.id { assert (ms + [e])[|ms|].id == id; }
    }
  }
}
