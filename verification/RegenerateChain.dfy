/** Any number of regenerations: each field whose rotate flag stays off keeps the value that the
    first regeneration read, and that is the value of version 1 exactly when no other inbound of the
    template stands in for the tagged one. */
module RegenerateChain {
  import opened Wrappers
  import opened JsonTree
  import opened FieldCrypto
  import opened Store
  import opened Settings
  import opened ConfigBuilder
  import opened ConfigBuild
  import opened BuilderViews
  import opened VersionChain
  import opened Regenerate
  import opened ChainLaw

  /** Some draws and some set of used ports produce this row. */
  ghost predicate Builds(ctx: Context, spec: Spec, previous: Option<VersionRow>, row: VersionRow)
  {
    exists used: set<int>, draws: Draws, files: Written ::
      draws.Valid() && BuildVersion(ctx, spec, previous, used, draws) == Ok(Stored(row, files))
  }

  ghost function BuildLink(ctx: Context): (Spec, Option<VersionRow>, VersionRow) -> bool
  {
    (spec: Spec, previous: Option<VersionRow>, row: VersionRow) => Builds(ctx, spec, previous, row)
  }

  ghost function Items(ctx: Context, spec: Spec, row: VersionRow): Result<seq<Json>>
  {
    var plain :- PlainConfig(ctx.encryptor, spec.profile, row);
    Inbounds(plain)
  }

  /** What a regeneration from this row extracts. */
  ghost function Taken(ctx: Context, spec: Spec, row: VersionRow): Result<Gleaned>
  {
    var items :- Items(ctx, spec, row);
    GleanAll(items)
  }

  /** What the tagged inbound of this row says. */
  ghost function Tagged(ctx: Context, spec: Spec, row: VersionRow): Result<Gleaned>
  {
    if spec.profile !in ctx.settings.profiles then Raised
    else
      var items :- Items(ctx, spec, row);
      var k :- FindTag(items, ctx.settings.profiles[spec.profile].inboundTag);
      Glean(items[k])
  }

  /** The template's tagged inbound has a client list. */
  ghost predicate TemplateHasClients(ctx: Context, spec: Spec)
  {
    && spec.profile in ctx.settings.profiles
    && var ps := ctx.settings.profiles[spec.profile];
       FindInbound(ps.template, ps.inboundTag).Ok? && HasClients(FindInbound(ps.template, ps.inboundTag).value)
  }

  lemma BackIsTaken(ctx: Context, spec: Spec, row: VersionRow)
    requires spec.profile in ctx.settings.profiles && ReadBack(ctx, spec, Some(row)).Ok?
    ensures ReadBack(ctx, spec, Some(row)).value.0.Some?
    ensures Taken(ctx, spec, row) == Ok(ReadBack(ctx, spec, Some(row)).value.0.value.gleaned)
  {
  }

  /** The document of a built Xray row, with the order it was built to. */
  lemma RowShows(ctx: Context, spec: Spec, previous: Option<VersionRow>, row: VersionRow)
    returns (o: Order, sni: Option<string>, service: Option<string>, doc: Json)
    requires ctx.encryptor.Valid() && !spec.profile.Hysteria2? && Builds(ctx, spec, previous, row)
    ensures spec.profile in ctx.settings.profiles && o.profile == ctx.settings.profiles[spec.profile]
    ensures o.policy == ResolvedPolicy(ctx, spec)
    ensures o.previous.Some? <==> previous.Some?
    ensures previous.Some? ==> Taken(ctx, spec, previous.value) == Ok(o.previous.value.gleaned)
    ensures PlainConfig(ctx.encryptor, spec.profile, row) == Ok(doc)
    ensures BuiltAround(spec.profile, o, row.port, sni, service, doc)
  {
    var used: set<int>, draws: Draws, files: Written :|
      draws.Valid() && BuildVersion(ctx, spec, previous, used, draws) == Ok(Stored(row, files));
    var built;
    o, built := Parts(ctx, spec, previous, used, draws, Stored(row, files));
    if previous.Some? {
      BackIsTaken(ctx, spec, previous.value);
    }
    var back := ReadBack(ctx, spec, previous).value;
    sni, service := GrpcSni(o, back.1.0).0, GrpcService(o, back.1.1);
    doc := files.config;
    StoredAround(ctx, spec, previous, used, draws, Stored(row, files), o, built);
    RowReadsBack(ctx, spec.profile, row.port, built, files, draws.nonce);
  }

  lemma ReadsOf(ctx: Context, spec: Spec, row: VersionRow, doc: Json, f: Field)
    requires spec.profile in ctx.settings.profiles && PlainConfig(ctx.encryptor, spec.profile, row) == Ok(doc) && Inbounds(doc).Ok?
    ensures Taken(ctx, spec, row) == GleanAll(Inbounds(doc).value)
    ensures var found := FindTag(Inbounds(doc).value, ctx.settings.profiles[spec.profile].inboundTag);
            Tagged(ctx, spec, row) == if found.Ok? then Glean(Inbounds(doc).value[found.value]) else Raised
  {
  }

  predicate RotateFlag(policy: Policy, f: Field)
  {
    match f
    case ClientIdField => policy.rotateClientId
    case ShortIdsField => policy.rotateShortIds
    case DestField => policy.rotateDest
    case ServerNamesField => policy.rotateDest
    case PathField => policy.rotatePath
  }

  /** Fields that a profile keeps in its tagged inbound. */
  predicate Applies(profile: Profile, hasClients: bool, f: Field)
  {
    match f
    case ClientIdField => !profile.Hysteria2? && hasClients
    case PathField => profile.XrayXhttp?
    case _ => profile.XrayReality?
  }

  lemma CarriedShows(profile: Profile, o: Order, original: Json, g: Gleaned, f: Field)
    requires ShowsSecrets(profile, o, original, g) && o.previous.Some?
    requires Applies(profile, HasClients(original), f) && !RotateFlag(o.policy, f)
    requires f.ServerNamesField? ==> o.previous.value.gleaned.dest.Some?
    requires FieldOf(o.previous.value.gleaned, f).Some? && GleanedOk(o.previous.value.gleaned)
    ensures FieldOf(g, f) == FieldOf(o.previous.value.gleaned, f)
  {
  }

  lemma SameElsewhere(profile: Profile, o: Order, p: Order, portA: int, portB: int, sniA: Option<string>, sniB: Option<string>,
                      serviceA: Option<string>, serviceB: Option<string>, a: Json, b: Json)
    requires BuiltAround(profile, o, portA, sniA, serviceA, a) && BuiltAround(profile, p, portB, sniB, serviceB, b)
    requires o.profile == p.profile
    ensures var k := FindTag(Inbounds(o.profile.template).value, o.profile.inboundTag).value;
            && |Inbounds(a).value| == |Inbounds(b).value| && k < |Inbounds(a).value|
            && forall j :: 0 <= j < |Inbounds(a).value| && j != k ==> Glean(Inbounds(a).value[j]) == Glean(Inbounds(b).value[j])
  {
    var template := Inbounds(o.profile.template).value;
    var k := FindTag(template, o.profile.inboundTag).value;
    forall j | 0 <= j < |template| && j != k ensures Glean(Inbounds(a).value[j]) == Glean(Inbounds(b).value[j]) {
      assert SameView(template[j], Inbounds(a).value[j]) && SameView(template[j], Inbounds(b).value[j]);
    }
  }

  /** The two documents of one regeneration, once their orders are known. */
  lemma CarriedBetween(profile: Profile, o: Order, p: Order, portA: int, portB: int, sniA: Option<string>, sniB: Option<string>,
                       serviceA: Option<string>, serviceB: Option<string>, a: Json, b: Json, f: Field)
    requires BuiltAround(profile, o, portA, sniA, serviceA, a) && BuiltAround(profile, p, portB, sniB, serviceB, b)
    requires o.profile == p.profile && p.previous.Some?
    requires GleanAll(Inbounds(a).value) == Ok(p.previous.value.gleaned) && GleanAll(Inbounds(b).value).Ok?
    requires var template := Inbounds(p.profile.template).value;
             Applies(profile, HasClients(template[FindTag(template, p.profile.inboundTag).value]), f) && !RotateFlag(p.policy, f)
    requires f.ServerNamesField? ==> p.previous.value.gleaned.dest.Some?
    requires FieldOf(p.previous.value.gleaned, f).Some?
    ensures FindTag(Inbounds(b).value, p.profile.inboundTag).Ok?
    ensures var tagged := Glean(Inbounds(b).value[FindTag(Inbounds(b).value, p.profile.inboundTag).value]);
            && tagged.Ok?
            && FieldOf(tagged.value, f) == FieldOf(p.previous.value.gleaned, f)
            && FieldOf(GleanAll(Inbounds(b).value).value, f) == FieldOf(p.previous.value.gleaned, f)
  {
    SameElsewhere(profile, o, p, portA, portB, sniA, sniB, serviceA, serviceB, a, b);
    AroundIsFound(profile, p, portB, sniB, serviceB, b);
    var items := Inbounds(b).value;
    var k := FindTag(items, p.profile.inboundTag).value;
    AllReadable(items);
    GleanAllOk(Inbounds(a).value);
    CarriedShows(profile, p, Inbounds(p.profile.template).value[k], Glean(items[k]).value, f);
    ExtractionFollows(Inbounds(a).value, items, k, f);
  }

  // ---- Rows ----

  ghost function TakenField(ctx: Context, spec: Spec, row: VersionRow, f: Field): Option<Json>
  {
    match Taken(ctx, spec, row) case Ok(g) => FieldOf(g, f) case Raised => None
  }

  ghost function TaggedField(ctx: Context, spec: Spec, row: VersionRow, f: Field): Option<Json>
  {
    match Tagged(ctx, spec, row) case Ok(g) => FieldOf(g, f) case Raised => None
  }

  lemma FieldsOf(ctx: Context, spec: Spec, row: VersionRow, doc: Json, k: nat, f: Field)
    requires spec.profile in ctx.settings.profiles && PlainConfig(ctx.encryptor, spec.profile, row) == Ok(doc) && Inbounds(doc).Ok?
    requires GleanAll(Inbounds(doc).value).Ok?
    requires FindTag(Inbounds(doc).value, ctx.settings.profiles[spec.profile].inboundTag) == Ok(k) && Glean(Inbounds(doc).value[k]).Ok?
    ensures TakenField(ctx, spec, row, f) == FieldOf(GleanAll(Inbounds(doc).value).value, f)
    ensures TaggedField(ctx, spec, row, f) == FieldOf(Glean(Inbounds(doc).value[k]).value, f)
  {
  }

  lemma CarriedRows(ctx: Context, a: Spec, rowA: VersionRow, b: Spec, rowB: VersionRow, f: Field, docA: Json, docB: Json,
                    o: Order, p: Order, sniA: Option<string>, sniB: Option<string>, serviceA: Option<string>, serviceB: Option<string>)
    requires PlainConfig(ctx.encryptor, a.profile, rowA) == Ok(docA) && PlainConfig(ctx.encryptor, b.profile, rowB) == Ok(docB)
    requires a.profile == b.profile && b.profile in ctx.settings.profiles
    requires BuiltAround(a.profile, o, rowA.port, sniA, serviceA, docA) && BuiltAround(b.profile, p, rowB.port, sniB, serviceB, docB)
    requires o.profile == p.profile == ctx.settings.profiles[b.profile]
    requires p.previous.Some? && GleanAll(Inbounds(docA).value) == Ok(p.previous.value.gleaned) && GleanAll(Inbounds(docB).value).Ok?
    requires p.policy == ResolvedPolicy(ctx, b) && KeepsField(ctx, b, f)
    requires FieldOf(p.previous.value.gleaned, f).Some?
    requires f.ServerNamesField? ==> p.previous.value.gleaned.dest.Some?
    ensures TaggedField(ctx, b, rowB, f) == FieldOf(p.previous.value.gleaned, f)
    ensures TakenField(ctx, b, rowB, f) == FieldOf(p.previous.value.gleaned, f)
  {
    CarriedBetween(b.profile, o, p, rowA.port, rowB.port, sniA, sniB, serviceA, serviceB, docA, docB, f);
    FieldsOf(ctx, b, rowB, docB, FindTag(Inbounds(docB).value, p.profile.inboundTag).value, f);
  }

  /** A version built from the row before it, and readable for the next build. */
  ghost predicate Link(ctx: Context, spec: Spec, previous: Option<VersionRow>, row: VersionRow)
  {
    Builds(ctx, spec, previous, row) && (!spec.profile.Hysteria2? ==> Taken(ctx, spec, row).Ok?)
  }

  /** The flag of a field the profile has is off in this build. */
  ghost predicate KeepsField(ctx: Context, spec: Spec, f: Field)
  {
    && spec.profile in ctx.settings.profiles
    && Applies(spec.profile, TemplateHasClients(ctx, spec), f)
    && !RotateFlag(ResolvedPolicy(ctx, spec), f)
  }

  /** One regeneration: a kept field appears in the new tagged inbound as extracted, and the next
      extraction finds the same value again. */
  lemma CarriedOnce(ctx: Context, a: Spec, previous: Option<VersionRow>, rowA: VersionRow, b: Spec, rowB: VersionRow, f: Field)
    requires ctx.encryptor.Valid() && a.profile == b.profile
    requires Link(ctx, a, previous, rowA) && Link(ctx, b, Some(rowA), rowB) && KeepsField(ctx, b, f)
    requires TakenField(ctx, a, rowA, f).Some?
    requires f.ServerNamesField? ==> TakenField(ctx, a, rowA, DestField).Some?
    ensures TaggedField(ctx, b, rowB, f) == TakenField(ctx, a, rowA, f)
    ensures TakenField(ctx, b, rowB, f) == TakenField(ctx, a, rowA, f)
  {
    var o, sniA, serviceA, docA := RowShows(ctx, a, previous, rowA);
    var p, sniB, serviceB, docB := RowShows(ctx, b, Some(rowA), rowB);
    CarriedDocuments(ctx, a, rowA, b, rowB, f, docA, docB, o, p, sniA, sniB, serviceA, serviceB);
  }

  /** ... once the two documents and their orders are known. */
  lemma CarriedDocuments(ctx: Context, a: Spec, rowA: VersionRow, b: Spec, rowB: VersionRow, f: Field, docA: Json, docB: Json,
                         o: Order, p: Order, sniA: Option<string>, sniB: Option<string>, serviceA: Option<string>, serviceB: Option<string>)
    requires a.profile == b.profile && b.profile in ctx.settings.profiles && o.profile == p.profile == ctx.settings.profiles[b.profile]
    requires PlainConfig(ctx.encryptor, a.profile, rowA) == Ok(docA) && PlainConfig(ctx.encryptor, b.profile, rowB) == Ok(docB)
    requires BuiltAround(a.profile, o, rowA.port, sniA, serviceA, docA) && BuiltAround(b.profile, p, rowB.port, sniB, serviceB, docB)
    requires p.policy == ResolvedPolicy(ctx, b) && KeepsField(ctx, b, f) && Taken(ctx, b, rowB).Ok?
    requires p.previous.Some? && Taken(ctx, b, rowA) == Ok(p.previous.value.gleaned)
    requires TakenField(ctx, a, rowA, f).Some?
    requires f.ServerNamesField? ==> TakenField(ctx, a, rowA, DestField).Some?
    ensures TaggedField(ctx, b, rowB, f) == TakenField(ctx, a, rowA, f)
    ensures TakenField(ctx, b, rowB, f) == TakenField(ctx, a, rowA, f)
  {
    ReadsOf(ctx, a, rowA, docA, f);
    ReadsOf(ctx, b, rowA, docA, f);
    ReadsOf(ctx, b, rowB, docB, f);
    CarriedRows(ctx, a, rowA, b, rowB, f, docA, docB, o, p, sniA, sniB, serviceA, serviceB);
  }

  // ---- Chains ----

  /** The reader of stored versions and the builder, as the chain argument uses them. */
  ghost function ReaderOf(ctx: Context): Reader
  {
    Reader(
      (spec: Spec, previous: Option<VersionRow>, row: VersionRow) => Link(ctx, spec, previous, row),
      (spec: Spec, f: Field) => KeepsField(ctx, spec, f),
      (spec: Spec, row: VersionRow, f: Field) => TakenField(ctx, spec, row, f),
      (spec: Spec, row: VersionRow, f: Field) => TaggedField(ctx, spec, row, f))
  }

  lemma ReaderIsLawful(ctx: Context)
    requires ctx.encryptor.Valid()
    ensures Lawful(ReaderOf(ctx))
  {
    var r := ReaderOf(ctx);
    forall a, previous, rowA, b, rowB, f | HandOver(r, a, previous, rowA, b, rowB, f)
      ensures r.tagged(b, rowB, f) == r.taken(a, rowA, f) && r.taken(b, rowB, f) == r.taken(a, rowA, f)
    {
      CarriedOnce(ctx, a, previous, rowA, b, rowB, f);
    }
    forall spec: Spec ensures r.keeps(spec, ServerNamesField) ==> r.keeps(spec, DestField) {
    }
  }

  // ---- What version 1 shows and what is read from it ----

  /** What stands in the template, before or after the tagged inbound, for a reader to take instead. */
  ghost function TemplateRival(ctx: Context, spec: Spec, f: Field): Option<Json>
  {
    if spec.profile !in ctx.settings.profiles then None
    else
      var ps := ctx.settings.profiles[spec.profile];
      match Inbounds(ps.template)
      case Raised => None
      case Ok(items) =>
        match FindTag(items, ps.inboundTag)
        case Raised => None
        case Ok(k) => Rival(items, k, f)
  }

  lemma SameRival(profile: Profile, o: Order, port: int, sni: Option<string>, service: Option<string>, doc: Json, f: Field)
    requires BuiltAround(profile, o, port, sni, service, doc)
    ensures var template, items := Inbounds(o.profile.template).value, Inbounds(doc).value;
            var k := FindTag(template, o.profile.inboundTag).value;
            k < |items| && Rival(items, k, f) == Rival(template, k, f)
  {
    var template, items := Inbounds(o.profile.template).value, Inbounds(doc).value;
    var k := FindTag(template, o.profile.inboundTag).value;
    forall j | 0 <= j < |template| && j != k ensures Glean(template[j]) == Glean(items[j]) {
      assert SameView(template[j], items[j]);
    }
    SameExtraction(items[..k], template[..k]);
    SameExtraction(items[k + 1..], template[k + 1..]);
  }

  /** What a regeneration takes from a built row: what stands in for the tagged inbound, else its own. */
  lemma TakenFromRow(ctx: Context, spec: Spec, previous: Option<VersionRow>, row: VersionRow, f: Field)
    requires ctx.encryptor.Valid() && !spec.profile.Hysteria2? && Link(ctx, spec, previous, row)
    requires TaggedField(ctx, spec, row, f).Some?
    ensures TakenField(ctx, spec, row, f) == TemplateRival(ctx, spec, f).Or(TaggedField(ctx, spec, row, f))
  {
    var o, sni, service, doc := RowShows(ctx, spec, previous, row);
    ReadsOf(ctx, spec, row, doc, f);
    AroundIsFound(spec.profile, o, row.port, sni, service, doc);
    SameRival(spec.profile, o, row.port, sni, service, doc, f);
    var items := Inbounds(doc).value;
    var k := FindTag(items, o.profile.inboundTag).value;
    AllReadable(items);
    FieldsOf(ctx, spec, row, doc, k, f);
    RivalIsTaken(items, k, f, TaggedField(ctx, spec, row, f));
  }

  /** No template inbound before the tagged one (for the client id) or after it (for the others) has the field. */
  ghost predicate StandsAlone(ctx: Context, spec: Spec, f: Field)
  {
    spec.profile in ctx.settings.profiles ==>
      var ps := ctx.settings.profiles[spec.profile];
      Inbounds(ps.template).Ok? && FindTag(Inbounds(ps.template).value, ps.inboundTag).Ok? ==>
        var items := Inbounds(ps.template).value;
        var k := FindTag(items, ps.inboundTag).value;
        forall j :: 0 <= j < |items| && (if f.ClientIdField? then j < k else k < j) ==> !Says(items[j], f)
  }

  lemma SameColumn(template: seq<Json>, items: seq<Json>, k: nat, f: Field)
    requires |template| == |items| && AllGlean(items) && k < |items|
    requires forall j :: 0 <= j < |items| && j != k ==> Glean(template[j]) == Glean(items[j])
    ensures NoneBeside(Column(items, f), k, f)
            <==> forall j :: 0 <= j < |template| && (if f.ClientIdField? then j < k else k < j) ==> !Says(template[j], f)
  {
    forall j | 0 <= j < |items| && j != k ensures Says(template[j], f) <==> Column(items, f)[j].Some? {
      assert Glean(template[j]) == Glean(items[j]);
    }
  }

  /** For a template that a version was built from, nothing stands in exactly when the field stands alone. */
  lemma NoTemplateRivalIff(ctx: Context, spec: Spec, previous: Option<VersionRow>, row: VersionRow, f: Field)
    requires ctx.encryptor.Valid() && !spec.profile.Hysteria2? && Link(ctx, spec, previous, row)
    ensures TemplateRival(ctx, spec, f).None? <==> StandsAlone(ctx, spec, f)
  {
    var o, sni, service, doc := RowShows(ctx, spec, previous, row);
    var template, items := Inbounds(o.profile.template).value, Inbounds(doc).value;
    var k := FindTag(template, o.profile.inboundTag).value;
    ReadsOf(ctx, spec, row, doc, f);
    SameRival(spec.profile, o, row.port, sni, service, doc, f);
    AllReadable(items);
    forall j | 0 <= j < |items| && j != k ensures Glean(template[j]) == Glean(items[j]) {
      assert SameView(template[j], items[j]);
    }
    SameColumn(template, items, k, f);
    NoRivalIff(items, k, f);
  }

  /** The template lets version 1's own value be found again: nothing stands in for it, or the same. */
  ghost predicate FirstIsFound(ctx: Context, spec: Spec, row: VersionRow, f: Field)
  {
    && TaggedField(ctx, spec, row, f).Some?
    && (TemplateRival(ctx, spec, f).None? || TemplateRival(ctx, spec, f) == TaggedField(ctx, spec, row, f))
  }

  /** Over a chain of any length whose flag stays off, the field keeps its value of version 1 in the tagged
      inbound exactly when the template has no such field in an inbound before the tagged one (for the
      client id) or after it (for the others), or has the very same value there; otherwise every later
      version shows the template's value. */
  lemma FieldKeptIff(ctx: Context, specs: seq<Spec>, rows: seq<VersionRow>, f: Field)
    requires ctx.encryptor.Valid() && IsChain(ReaderOf(ctx), specs, rows, f) && |rows| > 1
    requires TakenField(ctx, specs[0], rows[0], f).Some?
    requires f.ServerNamesField? ==> TakenField(ctx, specs[0], rows[0], DestField).Some?
    ensures forall i: nat :: 1 <= i < |rows| ==>
              TaggedField(ctx, specs[i], rows[i], f) == TakenField(ctx, specs[0], rows[0], f)
    ensures (forall i: nat :: 1 <= i < |rows| ==> TaggedField(ctx, specs[i], rows[i], f) == TaggedField(ctx, specs[0], rows[0], f))
            <==> FirstIsFound(ctx, specs[0], rows[0], f)
  {
    ReaderIsLawful(ctx);
    LawfulChain(ReaderOf(ctx), specs, rows, f);
    assert LinkAt(ReaderOf(ctx), specs, rows, 0) && LinkAt(ReaderOf(ctx), specs, rows, 1);
    assert KeepsField(ctx, specs[1], f);
    if TaggedField(ctx, specs[0], rows[0], f).Some? {
      TakenFromRow(ctx, specs[0], None, rows[0], f);
    }
  }

  lemma TaggedHasClient(ctx: Context, spec: Spec, previous: Option<VersionRow>, row: VersionRow)
    requires ctx.encryptor.Valid() && !spec.profile.Hysteria2? && Link(ctx, spec, previous, row) && TemplateHasClients(ctx, spec)
    ensures TaggedField(ctx, spec, row, ClientIdField).Some?
  {
    var o, sni, service, doc := RowShows(ctx, spec, previous, row);
    ReadsOf(ctx, spec, row, doc, ClientIdField);
    AroundIsFound(spec.profile, o, row.port, sni, service, doc);
    var items := Inbounds(doc).value;
    AllReadable(items);
    FieldsOf(ctx, spec, row, doc, FindTag(items, o.profile.inboundTag).value, ClientIdField);
  }

  /** With a client id that the template does not already have, version 1's id is every version's exactly
      when no inbound before the tagged one has a client id. */
  lemma ClientIdKeptIff(ctx: Context, specs: seq<Spec>, rows: seq<VersionRow>)
    requires ctx.encryptor.Valid() && IsChain(ReaderOf(ctx), specs, rows, ClientIdField) && |rows| > 1
    requires TemplateRival(ctx, specs[0], ClientIdField).Some? ==>
               TemplateRival(ctx, specs[0], ClientIdField) != TaggedField(ctx, specs[0], rows[0], ClientIdField)
    ensures (forall i: nat :: 1 <= i < |rows| ==>
               TaggedField(ctx, specs[i], rows[i], ClientIdField) == TaggedField(ctx, specs[0], rows[0], ClientIdField))
            <==> StandsAlone(ctx, specs[0], ClientIdField)
  {
    assert LinkAt(ReaderOf(ctx), specs, rows, 0) && LinkAt(ReaderOf(ctx), specs, rows, 1);
    assert KeepsField(ctx, specs[1], ClientIdField);
    TaggedHasClient(ctx, specs[0], None, rows[0]);
    TakenFromRow(ctx, specs[0], None, rows[0], ClientIdField);
    NoTemplateRivalIff(ctx, specs[0], None, rows[0], ClientIdField);
    FieldKeptIff(ctx, specs, rows, ClientIdField);
  }
}
