/** The argument over whole chains, for any reader and builder that obey the one-step law. */
module ChainLaw {
  import opened Wrappers
  import opened JsonTree
  import opened Store
  import opened VersionChain

  /** `link`: a version was built from its predecessor; `keeps`: the rotate flag of a field is off;
      `taken`: what the next build extracts; `tagged`: what the tagged inbound says. */
  datatype Reader = Reader(
    ghost link: (Spec, Option<VersionRow>, VersionRow) -> bool,
    ghost keeps: (Spec, Field) -> bool,
    ghost taken: (Spec, VersionRow, Field) -> Option<Json>,
    ghost tagged: (Spec, VersionRow, Field) -> Option<Json>)

  ghost predicate HandOver(r: Reader, a: Spec, previous: Option<VersionRow>, rowA: VersionRow, b: Spec, rowB: VersionRow, f: Field)
  {
    && a.profile == b.profile && r.link(a, previous, rowA) && r.link(b, Some(rowA), rowB) && r.keeps(b, f)
    && r.taken(a, rowA, f).Some? && (f.ServerNamesField? ==> r.taken(a, rowA, DestField).Some?)
  }

  /** The new tagged inbound shows, and the next extraction finds, what was taken. */
  ghost predicate Lawful(r: Reader)
  {
    && (forall a, previous, rowA, b, rowB, f :: HandOver(r, a, previous, rowA, b, rowB, f) ==>
          r.tagged(b, rowB, f) == r.taken(a, rowA, f) && r.taken(b, rowB, f) == r.taken(a, rowA, f))
    && (forall spec :: r.keeps(spec, ServerNamesField) ==> r.keeps(spec, DestField))
  }

  function Prev(rows: seq<VersionRow>, i: nat): Option<VersionRow>
    requires i <= |rows|
  {
    if i == 0 then None else Some(rows[i - 1])
  }

  ghost predicate LinkAt(r: Reader, specs: seq<Spec>, rows: seq<VersionRow>, i: nat)
    requires |specs| == |rows| && i < |rows|
  {
    specs[i].profile == specs[0].profile && r.link(specs[i], Prev(rows, i), rows[i])
  }

  /** Versions 1, 2, ... of one config, each built from the row before it, with the flag of the field
      off from version 2 on. Policies may differ otherwise. */
  ghost predicate IsChain(r: Reader, specs: seq<Spec>, rows: seq<VersionRow>, f: Field)
  {
    && |specs| == |rows| > 0
    && (forall i :: 0 <= i < |rows| ==> LinkAt(r, specs, rows, i))
    && (forall i :: 1 <= i < |specs| ==> r.keeps(specs[i], f))
  }

  lemma Step(r: Reader, specs: seq<Spec>, rows: seq<VersionRow>, f: Field, i: nat)
    requires Lawful(r) && IsChain(r, specs, rows, f) && 1 <= i < |rows|
    requires r.taken(specs[i - 1], rows[i - 1], f).Some?
    requires f.ServerNamesField? ==> r.taken(specs[i - 1], rows[i - 1], DestField).Some?
    ensures r.taken(specs[i], rows[i], f) == r.taken(specs[i - 1], rows[i - 1], f)
    ensures r.tagged(specs[i], rows[i], f) == r.taken(specs[i - 1], rows[i - 1], f)
  {
    assert LinkAt(r, specs, rows, i - 1) && LinkAt(r, specs, rows, i);
    assert HandOver(r, specs[i - 1], Prev(rows, i - 1), rows[i - 1], specs[i], rows[i], f);
  }

  lemma {:induction false} HandedDown(r: Reader, specs: seq<Spec>, rows: seq<VersionRow>, f: Field, i: nat)
    requires Lawful(r) && IsChain(r, specs, rows, f) && i < |rows|
    requires r.taken(specs[0], rows[0], f).Some?
    requires f.ServerNamesField? ==> r.taken(specs[0], rows[0], DestField).Some?
    ensures r.taken(specs[i], rows[i], f) == r.taken(specs[0], rows[0], f)
    ensures i > 0 ==> r.tagged(specs[i], rows[i], f) == r.taken(specs[0], rows[0], f)
    decreases i, f.ServerNamesField?
  {
    if i > 0 {
      HandedDown(r, specs, rows, f, i - 1);
      if f.ServerNamesField? {
        assert IsChain(r, specs, rows, DestField);
        HandedDown(r, specs, rows, DestField, i - 1);
      }
      Step(r, specs, rows, f, i);
    }
  }

  /** Every later version shows what was taken from version 1; what version 1 showed stays shown
      exactly when it was what was taken. */
  lemma LawfulChain(r: Reader, specs: seq<Spec>, rows: seq<VersionRow>, f: Field)
    requires Lawful(r) && IsChain(r, specs, rows, f) && |rows| > 1
    requires r.taken(specs[0], rows[0], f).Some?
    requires f.ServerNamesField? ==> r.taken(specs[0], rows[0], DestField).Some?
    ensures forall i: nat :: 1 <= i < |rows| ==> r.tagged(specs[i], rows[i], f) == r.taken(specs[0], rows[0], f)
    ensures (forall i: nat :: 1 <= i < |rows| ==> r.tagged(specs[i], rows[i], f) == r.tagged(specs[0], rows[0], f))
            <==> r.taken(specs[0], rows[0], f) == r.tagged(specs[0], rows[0], f)
  {
    forall i: nat | 1 <= i < |rows| ensures r.tagged(specs[i], rows[i], f) == r.taken(specs[0], rows[0], f) {
      HandedDown(r, specs, rows, f, i);
    }
    assert r.tagged(specs[1], rows[1], f) == r.taken(specs[0], rows[0], f);
  }

  // ---- Values that never change ----

  /** `holds` is what a build relies on in the row before it; `sees` is the value watched. */
  datatype Watcher<!T> = Watcher(
    ghost link: (Spec, Option<VersionRow>, VersionRow) -> bool,
    ghost keeps: Spec -> bool,
    ghost holds: (Spec, VersionRow) -> bool,
    ghost sees: (Spec, VersionRow) -> T)

  ghost predicate Relays<T(!new)>(w: Watcher<T>, a: Spec, rowA: VersionRow, b: Spec, rowB: VersionRow)
  {
    && a.profile == b.profile && a.publicHost == b.publicHost
    && w.holds(a, rowA) && w.link(b, Some(rowA), rowB) && w.keeps(b)
  }

  ghost predicate Steady<T(!new)>(w: Watcher<T>)
  {
    forall a, rowA, b, rowB :: Relays(w, a, rowA, b, rowB) ==> w.holds(b, rowB) && w.sees(b, rowB) == w.sees(a, rowA)
  }

  ghost predicate WatchedAt<T(!new)>(w: Watcher<T>, specs: seq<Spec>, rows: seq<VersionRow>, i: nat)
    requires |specs| == |rows| && i < |rows|
  {
    && specs[i].profile == specs[0].profile && specs[i].publicHost == specs[0].publicHost
    && w.link(specs[i], Prev(rows, i), rows[i])
    && (i > 0 ==> w.keeps(specs[i]))
  }

  ghost predicate IsWatchedChain<T(!new)>(w: Watcher<T>, specs: seq<Spec>, rows: seq<VersionRow>)
  {
    && |specs| == |rows| > 0
    && forall i :: 0 <= i < |rows| ==> WatchedAt(w, specs, rows, i)
  }

  lemma {:induction false} SteadyChain<T(!new)>(w: Watcher<T>, specs: seq<Spec>, rows: seq<VersionRow>, i: nat)
    requires Steady(w) && IsWatchedChain(w, specs, rows) && i < |rows| && w.holds(specs[0], rows[0])
    ensures w.holds(specs[i], rows[i]) && w.sees(specs[i], rows[i]) == w.sees(specs[0], rows[0])
  {
    if i > 0 {
      SteadyChain(w, specs, rows, i - 1);
      assert WatchedAt(w, specs, rows, i - 1) && WatchedAt(w, specs, rows, i);
      assert Relays(w, specs[i - 1], rows[i - 1], specs[i], rows[i]);
    }
  }
}
