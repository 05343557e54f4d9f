/** Regenerating over and over: what stays equal to version 1 when its rotate flag is off. */
module VersionChain {
  import opened Wrappers
  import opened JsonTree
  import opened ConfigBuilder

  // ---- First and last entry of a column ----

  function First<T>(xs: seq<Option<T>>): Option<T>
  {
    if xs == [] then None else First(xs[..|xs| - 1]).Or(xs[|xs| - 1])
  }

  function Last<T>(xs: seq<Option<T>>): Option<T>
  {
    if xs == [] then None else xs[|xs| - 1].Or(Last(xs[..|xs| - 1]))
  }

  lemma {:induction false} FirstSet<T>(xs: seq<Option<T>>, k: nat, x: T)
    requires k < |xs| && (First(xs) == Some(x) || First(xs).None?)
    ensures First(xs[k := Some(x)]) == Some(x)
  {
    var n := |xs| - 1;
    if k < n {
      FirstSet(xs[..n], k, x);
      assert xs[k := Some(x)][..n] == xs[..n][k := Some(x)];
    } else {
      assert xs[k := Some(x)][..n] == xs[..n];
    }
  }

  lemma {:induction false} LastSet<T>(xs: seq<Option<T>>, k: nat, x: T)
    requires k < |xs| && (Last(xs) == Some(x) || Last(xs).None?)
    ensures Last(xs[k := Some(x)]) == Some(x)
  {
    var n := |xs| - 1;
    if k < n && xs[n].None? {
      LastSet(xs[..n], k, x);
      assert xs[k := Some(x)][..n] == xs[..n][k := Some(x)];
    }
  }

  lemma {:induction false} FirstSplits<T>(xs: seq<Option<T>>, k: nat)
    requires k < |xs| && xs[k].Some?
    ensures First(xs) == First(xs[..k]).Or(xs[k])
  {
    var n := |xs| - 1;
    if k < n {
      FirstSplits(xs[..n], k);
      assert xs[..n][..k] == xs[..k];
    }
  }

  lemma {:induction false} LastSplits<T>(xs: seq<Option<T>>, k: nat)
    requires k < |xs| && xs[k].Some?
    ensures Last(xs) == Last(xs[k + 1..]).Or(xs[k])
  {
    var n := |xs| - 1;
    if k < n {
      LastSplits(xs[..n], k);
      assert xs[k + 1..][..|xs[k + 1..]| - 1] == xs[..n][k + 1..];
    }
  }

  lemma {:induction false} NoneIff<T>(xs: seq<Option<T>>)
    ensures First(xs).None? <==> forall j :: 0 <= j < |xs| ==> xs[j].None?
    ensures Last(xs).None? <==> forall j :: 0 <= j < |xs| ==> xs[j].None?
  {
    if xs != [] {
      var n := |xs| - 1;
      NoneIff(xs[..n]);
      assert forall j :: 0 <= j < n ==> xs[..n][j] == xs[j];
    }
  }

  // ---- The extraction as columns ----

  /** The fields that a regeneration reads from the inbounds. */
  datatype Field = ClientIdField | ShortIdsField | DestField | ServerNamesField | PathField

  function FieldOf(g: Gleaned, f: Field): Option<Json>
  {
    match f
    case ClientIdField => g.clientId
    case ShortIdsField => if g.shortIds.Some? then Some(Arr(g.shortIds.value)) else None
    case DestField => if g.dest.Some? then Some(Str(g.dest.value)) else None
    case ServerNamesField => if g.serverNames.Some? then Some(Arr(g.serverNames.value)) else None
    case PathField => if g.path.Some? then Some(Str(g.path.value)) else None
  }

  ghost predicate AllGlean(items: seq<Json>)
  {
    forall i :: 0 <= i < |items| ==> Glean(items[i]).Ok?
  }

  /** What each inbound has in a field. */
  ghost function Column(items: seq<Json>, f: Field): (r: seq<Option<Json>>)
    requires AllGlean(items)
    ensures |r| == |items| && forall i :: 0 <= i < |items| ==> r[i] == FieldOf(Glean(items[i]).value, f)
  {
    seq(|items|, i requires 0 <= i < |items| => FieldOf(Glean(items[i]).value, f))
  }

  /** The first client id counts, and the last of everything else. */
  function Deciding(column: seq<Option<Json>>, f: Field): Option<Json>
  {
    if f.ClientIdField? then First(column) else Last(column)
  }

  /** What is read in place of the value at `k`, if anything: for the client id an earlier one, for the
      other fields a later one. */
  function RivalIn(column: seq<Option<Json>>, k: nat, f: Field): Option<Json>
    requires k < |column|
  {
    if f.ClientIdField? then First(column[..k]) else Last(column[k + 1..])
  }

  lemma RivalWins(column: seq<Option<Json>>, k: nat, f: Field)
    requires k < |column| && column[k].Some?
    ensures Deciding(column, f) == RivalIn(column, k, f).Or(column[k])
  {
    if f.ClientIdField? {
      FirstSplits(column, k);
    } else {
      LastSplits(column, k);
    }
  }

  /** No inbound before it (for the client id) or after it (for the other fields) has the field. */
  predicate NoneBeside(column: seq<Option<Json>>, k: nat, f: Field)
  {
    forall j :: 0 <= j < |column| && (if f.ClientIdField? then j < k else k < j) ==> column[j].None?
  }

  lemma BesideIff(column: seq<Option<Json>>, k: nat, f: Field)
    requires k < |column|
    ensures RivalIn(column, k, f).None? <==> NoneBeside(column, k, f)
  {
    if f.ClientIdField? {
      NoneIff(column[..k]);
    } else {
      var after := column[k + 1..];
      NoneIff(after);
      forall j | k < j < |column| ensures column[j] == after[j - k - 1] {}
      if NoneBeside(column, k, f) {
        forall i | 0 <= i < |after| ensures after[i].None? {
          assert after[i] == column[k + 1 + i];
        }
      }
    }
  }

  lemma MergeField(acc: Gleaned, g: Gleaned, f: Field)
    ensures FieldOf(Merge(acc, g), f)
            == if f.ClientIdField? then FieldOf(acc, f).Or(FieldOf(g, f)) else FieldOf(g, f).Or(FieldOf(acc, f))
  {
  }

  lemma {:induction false} AllReadable(items: seq<Json>)
    requires GleanAll(items).Ok?
    ensures AllGlean(items)
  {
    if items != [] {
      var n := |items| - 1;
      AllReadable(items[..n]);
      forall i | 0 <= i < |items| ensures Glean(items[i]).Ok? {
        if i < n {
          assert items[..n][i] == items[i];
        }
      }
    }
  }

  lemma ColumnPrefix(items: seq<Json>, f: Field)
    requires AllGlean(items) && items != []
    ensures AllGlean(items[..|items| - 1])
    ensures Column(items, f)[..|items| - 1] == Column(items[..|items| - 1], f)
  {
    var n := |items| - 1;
    forall i | 0 <= i < n ensures Glean(items[..n][i]).Ok? {
      assert items[..n][i] == items[i];
    }
  }

  lemma {:induction false} ExtractionDecides(items: seq<Json>, f: Field)
    requires GleanAll(items).Ok?
    ensures AllGlean(items)
    ensures FieldOf(GleanAll(items).value, f) == Deciding(Column(items, f), f)
  {
    AllReadable(items);
    if items != [] {
      var n := |items| - 1;
      ExtractionDecides(items[..n], f);
      ColumnPrefix(items, f);
      MergeField(GleanAll(items[..n]).value, Glean(items[n]).value, f);
    }
  }

  /** Two extractions from lists that differ at one inbound only: if that inbound now holds what the
      first extraction gave, so does the second extraction. */
  lemma ExtractionFollows(before: seq<Json>, after: seq<Json>, k: nat, f: Field)
    requires GleanAll(before).Ok? && GleanAll(after).Ok?
    requires |before| == |after| && k < |after|
    requires forall j :: 0 <= j < |after| && j != k ==> Glean(before[j]) == Glean(after[j])
    requires Glean(after[k]).Ok? && FieldOf(GleanAll(before).value, f).Some?
    requires FieldOf(Glean(after[k]).value, f) == FieldOf(GleanAll(before).value, f)
    ensures FieldOf(GleanAll(after).value, f) == FieldOf(GleanAll(before).value, f)
  {
    ExtractionDecides(before, f);
    ExtractionDecides(after, f);
    var x := FieldOf(GleanAll(before).value, f).value;
    var was, now := Column(before, f), Column(after, f);
    OneEntryDiffers(before, after, k, f);
    assert now == was[k := Some(x)];
    DecidingSet(was, k, x, f);
  }

  lemma OneEntryDiffers(before: seq<Json>, after: seq<Json>, k: nat, f: Field)
    requires AllGlean(before) && AllGlean(after) && |before| == |after| && k < |after|
    requires forall j :: 0 <= j < |after| && j != k ==> Glean(before[j]) == Glean(after[j])
    ensures Column(after, f) == Column(before, f)[k := FieldOf(Glean(after[k]).value, f)]
  {
    forall j | 0 <= j < |after| && j != k ensures Column(after, f)[j] == Column(before, f)[j] {}
  }

  lemma DecidingSet(xs: seq<Option<Json>>, k: nat, x: Json, f: Field)
    requires k < |xs| && Deciding(xs, f) == Some(x)
    ensures Deciding(xs[k := Some(x)], f) == Some(x)
  {
    if f.ClientIdField? {
      FirstSet(xs, k, x);
    } else {
      LastSet(xs, k, x);
    }
  }

  // ---- What decides in a list ----

  lemma {:induction false} SameExtraction(a: seq<Json>, b: seq<Json>)
    requires |a| == |b| && forall i :: 0 <= i < |a| ==> Glean(a[i]) == Glean(b[i])
    ensures GleanAll(a) == GleanAll(b)
  {
    if a != [] {
      var n := |a| - 1;
      SameExtraction(a[..n], b[..n]);
    }
  }

  /** What a reader takes from a list, if it can be read. */
  function TakenFrom(items: seq<Json>, f: Field): Option<Json>
  {
    match GleanAll(items) case Ok(g) => FieldOf(g, f) case Raised => None
  }

  /** What a reader of a whole list would take instead of what the k-th inbound says. */
  function Rival(items: seq<Json>, k: nat, f: Field): Option<Json>
    requires k < |items|
  {
    if f.ClientIdField? then TakenFrom(items[..k], f) else TakenFrom(items[k + 1..], f)
  }

  lemma {:induction false} SlicesReadable(items: seq<Json>)
    requires AllGlean(items)
    ensures GleanAll(items).Ok?
  {
    if items != [] {
      var n := |items| - 1;
      ColumnPrefix(items, ClientIdField);
      SlicesReadable(items[..n]);
      assert Glean(items[n]).Ok?;
    }
  }

  lemma SliceReads(items: seq<Json>, lo: nat, hi: nat, slice: seq<Json>)
    requires AllGlean(items) && lo <= hi <= |items| && slice == items[lo..hi]
    ensures AllGlean(slice) && GleanAll(slice).Ok?
  {
    forall i | 0 <= i < |slice| ensures Glean(slice[i]).Ok? {
      assert slice[i] == items[lo + i];
    }
    SlicesReadable(slice);
  }

  lemma SliceColumn(items: seq<Json>, lo: nat, hi: nat, slice: seq<Json>, f: Field)
    requires AllGlean(items) && AllGlean(slice) && lo <= hi <= |items| && slice == items[lo..hi]
    ensures Column(slice, f) == Column(items, f)[lo..hi]
  {
    var column := Column(items, f)[lo..hi];
    forall i | 0 <= i < |slice| ensures Column(slice, f)[i] == column[i] {
      assert slice[i] == items[lo + i] && column[i] == Column(items, f)[lo + i];
    }
  }

  lemma SliceTaken(items: seq<Json>, lo: nat, hi: nat, slice: seq<Json>, column: seq<Option<Json>>, f: Field)
    requires AllGlean(items) && lo <= hi <= |items| && slice == items[lo..hi] && column == Column(items, f)[lo..hi]
    ensures TakenFrom(slice, f) == Deciding(column, f)
  {
    SliceReads(items, lo, hi, slice);
    SliceColumn(items, lo, hi, slice, f);
    ExtractionDecides(slice, f);
  }

  lemma RivalBefore(items: seq<Json>, k: nat)
    requires AllGlean(items) && k < |items|
    ensures Rival(items, k, ClientIdField) == RivalIn(Column(items, ClientIdField), k, ClientIdField)
  {
    SliceTaken(items, 0, k, items[..k], Column(items, ClientIdField)[..k], ClientIdField);
  }

  lemma RivalAfter(items: seq<Json>, k: nat, f: Field)
    requires AllGlean(items) && k < |items| && !f.ClientIdField?
    ensures Rival(items, k, f) == RivalIn(Column(items, f), k, f)
  {
    SliceTaken(items, k + 1, |items|, items[k + 1..], Column(items, f)[k + 1..], f);
  }

  /** The list and its column of one field. */
  lemma RivalOfColumn(items: seq<Json>, k: nat, f: Field)
    requires GleanAll(items).Ok? && AllGlean(items) && k < |items|
    ensures TakenFrom(items, f) == Deciding(Column(items, f), f)
    ensures Rival(items, k, f) == RivalIn(Column(items, f), k, f)
  {
    ExtractionDecides(items, f);
    if f.ClientIdField? {
      RivalBefore(items, k);
    } else {
      RivalAfter(items, k, f);
    }
  }

  /** A reader of the list takes what the k-th inbound says unless something stands in for it. */
  lemma RivalIsTaken(items: seq<Json>, k: nat, f: Field, own: Option<Json>)
    requires GleanAll(items).Ok? && AllGlean(items) && k < |items| && own.Some? && Column(items, f)[k] == own
    ensures TakenFrom(items, f) == Rival(items, k, f).Or(own)
  {
    RivalOfColumn(items, k, f);
    RivalWins(Column(items, f), k, f);
  }

  /** Nothing does exactly when no inbound on the deciding side has the field. */
  lemma NoRivalIff(items: seq<Json>, k: nat, f: Field)
    requires GleanAll(items).Ok? && AllGlean(items) && k < |items|
    ensures Rival(items, k, f).None? <==> NoneBeside(Column(items, f), k, f)
  {
    RivalOfColumn(items, k, f);
    BesideIff(Column(items, f), k, f);
  }

  // ---- What one inbound says is read back ----

  /** The inbound has the field. */
  predicate Says(inbound: Json, f: Field)
  {
    Glean(inbound).Ok? && FieldOf(Glean(inbound).value, f).Some?
  }

  lemma WrittenIsTaken(items: seq<Json>, k: nat, f: Field, inbound: Json)
    requires GleanAll(items).Ok? && k < |items| && Says(inbound, f)
    ensures TakenFrom(items[k := inbound], f) == Rival(items, k, f).Or(FieldOf(Glean(inbound).value, f))
  {
    var written := items[k := inbound];
    AllReadable(items);
    SlicesReadable(written);
    assert written[..k] == items[..k] && written[k + 1..] == items[k + 1..];
    RivalIsTaken(written, k, f, FieldOf(Glean(inbound).value, f));
  }

  function Value(f: Field, text: string): Json
  {
    if f.ShortIdsField? || f.ServerNamesField? then Arr([Str(text)]) else Str(text)
  }

  /** An inbound that has just this field, with this text. */
  function Saying(f: Field, text: string): Json
  {
    match f
    case ClientIdField => Obj(map["settings" := Obj(map["clients" := Arr([Obj(map["id" := Str(text)])])])])
    case ShortIdsField => Streaming("realitySettings", "shortIds", Value(f, text))
    case DestField => Streaming("realitySettings", "dest", Value(f, text))
    case ServerNamesField => Streaming("realitySettings", "serverNames", Value(f, text))
    case PathField => Streaming("xhttpSettings", "path", Value(f, text))
  }

  function Streaming(section: string, key: string, value: Json): Json
  {
    Obj(map["streamSettings" := Obj(map[section := Obj(map[key := value])])])
  }

  lemma ClientSays(text: string)
    requires text != ""
    ensures Glean(Saying(ClientIdField, text)) == Ok(Nothing.(clientId := Some(Str(text))))
  {
    assert Index(Saying(ClientIdField, text), "settings") == Ok(Obj(map["clients" := Arr([Obj(map["id" := Str(text)])])]));
  }

  lemma PathSays(text: string)
    requires text != ""
    ensures Glean(Saying(PathField, text)) == Ok(Nothing.(path := Some(text)))
  {
  }

  lemma DestSays(text: string)
    requires text != ""
    ensures Glean(Saying(DestField, text)) == Ok(Nothing.(dest := Some(text)))
  {
  }

  lemma ListSays(f: Field, text: string)
    requires f.ShortIdsField? || f.ServerNamesField?
    ensures Says(Saying(f, text), f) && FieldOf(Glean(Saying(f, text)).value, f) == Some(Value(f, text))
  {
  }

  lemma SayingSays(f: Field, text: string)
    requires text != ""
    ensures Says(Saying(f, text), f) && FieldOf(Glean(Saying(f, text)).value, f) == Some(Value(f, text))
  {
    match f {
      case ClientIdField => ClientSays(text);
      case PathField => PathSays(text);
      case DestField => DestSays(text);
      case _ => ListSays(f, text);
    }
  }

  /** Of two inbounds that say different things one differs from the rival. */
  lemma RivalIsTold(items: seq<Json>, k: nat, f: Field) returns (inbound: Json)
    requires GleanAll(items).Ok? && k < |items| && Rival(items, k, f).Some?
    ensures Says(inbound, f) && TakenFrom(items[k := inbound], f) != FieldOf(Glean(inbound).value, f)
  {
    var text := if Rival(items, k, f) == Some(Value(f, "a")) then "b" else "a";
    assert "a"[0] != "b"[0] && Value(f, "a") != Value(f, "b");
    inbound := Saying(f, text);
    SayingSays(f, text);
    WrittenIsTaken(items, k, f, inbound);
  }

  /** Whatever is written to the k-th inbound is read back from the list exactly when no inbound before it
      (for the client id) or after it (for the other fields) has the field. */
  lemma RecoveredIff(items: seq<Json>, k: nat, f: Field)
    requires GleanAll(items).Ok? && AllGlean(items) && k < |items|
    ensures (forall inbound :: Says(inbound, f) ==> TakenFrom(items[k := inbound], f) == FieldOf(Glean(inbound).value, f))
            <==> NoneBeside(Column(items, f), k, f)
  {
    NoRivalIff(items, k, f);
    if Rival(items, k, f).None? {
      forall inbound | Says(inbound, f) ensures TakenFrom(items[k := inbound], f) == FieldOf(Glean(inbound).value, f) {
        WrittenIsTaken(items, k, f, inbound);
      }
    } else {
      var inbound := RivalIsTold(items, k, f);
    }
  }
}
