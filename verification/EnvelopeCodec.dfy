/**
  The envelope codec: the poison rule on the pairs as written, the decode that drops forbidden
  keys and folds the `urn` alias into `job`, and the encode that refuses both. A body that is no
  JSON document, or that holds an integer the core parser rejects, is Unparsable. The core parser
  reads the words NaN and Infinity, which the poison rule refuses.
*/
module EnvelopeCodec {
  import opened Helpers
  import opened JsonTree

  // `words` when the text holds one of these words.
  datatype Body = Unparsable | Doc(root: Json, words: bool)

  // The text of a dictionary whose numbers are finite.
  function Text(d: Pairs): Body {
    Doc(Obj(d), false)
  }

  // ---- The shape -----------------------------------------------------------------------

  datatype Kind = AnyKind | StringKind | IntegerKind | DataKind | MetaKind | DeadLetterKind

  function TopKind(key: string): Kind {
    if key == "trace_id" then StringKind
    else if key == "attempts" then IntegerKind
    else if key == "data" then DataKind
    else if key == "meta" then MetaKind
    else if key == "dead_letter" then DeadLetterKind
    else AnyKind
  }

  function MetaKinds(key: string): Kind {
    if key in {"id", "queue", "lang"} then StringKind
    else if key in {"schema_version", "created_at"} then IntegerKind
    else AnyKind
  }

  function DeadLetterKinds(key: string): Kind {
    if key in {"reason", "error", "exception", "original_queue", "lang"} then StringKind
    else if key in {"failed_at", "attempts"} then IntegerKind
    else AnyKind
  }

  predicate Int64(n: int) {
    -0x8000_0000_0000_0000 <= n <= 0x7fff_ffff_ffff_ffff
  }

  // `_check_member` for a member that holds no members to check.
  predicate LeafOk(kind: Kind, v: Json) {
    v.Null? ||
    match kind
    case AnyKind => true
    case StringKind => v.Str?
    case IntegerKind => v.Int? && Int64(v.n)
    case DataKind => v.Obj? && AllFinite(v)
    case _ => v.Obj?
  }

  ghost predicate FlatOk(pairs: Pairs, kinds: string -> Kind) {
    forall p :: p in pairs ==> LeafOk(kinds(p.0), p.1)
  }

  ghost predicate MemberOk(key: string, v: Json) {
    && LeafOk(TopKind(key), v)
    && (TopKind(key).MetaKind? && v.Obj? ==> FlatOk(v.members, MetaKinds))
    && (TopKind(key).DeadLetterKind? && v.Obj? ==> FlatOk(v.members, DeadLetterKinds))
  }

  // No envelope violation: every occurrence of a repeated member is looked at.
  ghost predicate TopOk(pairs: Pairs) {
    forall p :: p in pairs ==> MemberOk(p.0, p.1)
  }

  // ---- Identity ------------------------------------------------------------------------------

  predicate ValidUrn(v: Option<Json>) {
    v.Some? && v.value.Str? && exists i :: 0 <= i < |v.value.s| && v.value.s[i] !in " \t\n\U{0B}\U{0C}\r"
  }

  // `EnvelopeCodec.urn`
  function Urn(d: Pairs): string {
    if ValidUrn(Get(d, "job")) then Get(d, "job").value.s
    else if ValidUrn(Get(d, "urn")) then Get(d, "urn").value.s
    else ""
  }

  // `EnvelopeCodec.poison_cause` is not None.
  ghost predicate IsPoison(b: Body, requireIdentity: bool) {
    || b.Unparsable? || b.words || !b.root.Obj? || !TopOk(b.root.members)
    || (requireIdentity && !ValidUrn(Get(Load(b.root).members, "job")) && !ValidUrn(Get(Load(b.root).members, "urn")))
  }

  // ---- What is poison, member by member ----------------------------------------------------------

  predicate NoString(v: Json) {
    !v.Null? && !v.Str?
  }

  predicate NoInteger(v: Json) {
    !v.Null? && !(v.Int? && -0x8000_0000_0000_0000 <= v.n < 0x8000_0000_0000_0000)
  }

  // A known member of the wrong type, at the top or in one of the two blocks.
  predicate Mistyped(key: string, v: Json) {
    || (key == "trace_id" && NoString(v)) || (key == "attempts" && NoInteger(v))
    || (key == "data" && !v.Null? && !(v.Obj? && AllFinite(v)))
    || (key in {"meta", "dead_letter"} && !v.Null? && !v.Obj?)
  }

  predicate MistypedIn(block: string, key: string, v: Json) {
    || (block == "meta" && key in {"id", "queue", "lang"} && NoString(v))
    || (block == "meta" && key in {"schema_version", "created_at"} && NoInteger(v))
    || (block == "dead_letter" && key in {"reason", "error", "exception", "original_queue", "lang"} && NoString(v))
    || (block == "dead_letter" && key in {"failed_at", "attempts"} && NoInteger(v))
  }

  ghost predicate MemberMistyped(p: (string, Json)) {
    Mistyped(p.0, p.1) || (p.1.Obj? && exists q :: q in p.1.members && MistypedIn(p.0, q.0, q.1))
  }

  lemma MemberOkIff(p: (string, Json))
    ensures MemberOk(p.0, p.1) <==> !MemberMistyped(p)
  {
    if p.1.Obj? {
      forall q | q in p.1.members
        ensures p.0 == "meta" ==> (LeafOk(MetaKinds(q.0), q.1) <==> !MistypedIn(p.0, q.0, q.1))
        ensures p.0 == "dead_letter" ==> (LeafOk(DeadLetterKinds(q.0), q.1) <==> !MistypedIn(p.0, q.0, q.1))
      {
      }
    }
  }

  // An object is poison for its structure exactly when it holds one of the words or an occurrence
  // of a known member of the wrong type; anything that is no object is poison.
  lemma PoisonIff(root: Json, words: bool)
    ensures IsPoison(Doc(root, words), false) <==>
      words || !root.Obj? || exists p :: p in root.members && MemberMistyped(p)
  {
    if root.Obj? {
      forall p | p in root.members ensures MemberOk(p.0, p.1) <==> !MemberMistyped(p) { MemberOkIff(p); }
    }
  }

  // A string that is not blank, by the blanks of ASCII.
  ghost predicate Named(v: Json) {
    v.Str? && exists c :: c in v.s && c !in " \t\n\r\U{0B}\U{0C}"
  }

  // The last occurrence of the member is such a string.
  ghost predicate LastNamed(d: Pairs, key: string) {
    exists i :: 0 <= i < |d| && d[i].0 == key && Named(d[i].1) && forall j :: i < j < |d| ==> d[j].0 != key
  }

  // And it is for its identity exactly when neither `job` nor `urn` is, last, a string that is not
  // blank.
  lemma NamelessIff(d: Pairs, words: bool)
    ensures IsPoison(Doc(Obj(d), words), true) <==>
      (IsPoison(Doc(Obj(d), words), false) || (!LastNamed(d, "job") && !LastNamed(d, "urn")))
  {
    NamedIff(d, "job");
    NamedIff(d, "urn");
  }

  lemma NamedIff(d: Pairs, key: string)
    ensures ValidUrn(Get(Load(Obj(d)).members, key)) <==> LastNamed(d, key)
  {
    var loaded := LoadPairs(Obj(d), d);
    forall i | 0 <= i < |d| ensures loaded[i] == (d[i].0, Load(d[i].1)) { LoadPairsAt(Obj(d), d, i); }
    LastWins(loaded, key);
    LastOfIs(loaded, key);
    var last := LastOf(loaded, key);
    if last.Some? {
      var i :| IsLast(loaded, key, i) && last == Some(loaded[i].1);
      UrnIsNamed(d[i].1);
      assert LastNamed(d, key) ==> Named(d[i].1);
      if ValidUrn(last) { assert d[i].0 == key && Named(d[i].1); }
    }
  }

  lemma UrnIsNamed(v: Json)
    ensures ValidUrn(Some(Load(v))) <==> Named(v)
  {
    if v.Str? {
      if ValidUrn(Some(v)) {
        var i :| 0 <= i < |v.s| && v.s[i] !in " \t\n\U{0B}\U{0C}\r";
        assert v.s[i] in v.s;
      }
      if Named(v) {
        var c :| c in v.s && c !in " \t\n\r\U{0B}\U{0C}";
        var i :| 0 <= i < |v.s| && v.s[i] == c;
      }
    }
  }

  function MetaOf(id: string, queue: string, lang: string, version: int, created: int): Pairs {
    [("id", Str(id)), ("queue", Str(queue)), ("lang", Str(lang)), ("schema_version", Int(version)),
     ("created_at", Int(created))]
  }

  lemma MetaIsTyped(id: string, queue: string, lang: string, version: int, created: int)
    requires Int64(version) && Int64(created)
    ensures !MemberMistyped(("meta", Obj(MetaOf(id, queue, lang, version, created))))
  {
    var meta := MetaOf(id, queue, lang, version, created);
    forall q | q in meta ensures !MistypedIn("meta", q.0, q.1) { }
  }

  // An envelope as the producers write it is no poison.
  lemma OrdinaryIsNoPoison(job: string, trace: string, data: Json, id: string, queue: string, lang: string,
                           version: int, created: int, attempts: int)
    requires Named(Str(job)) && data.Obj? && AllFinite(data)
    requires Int64(version) && Int64(created) && Int64(attempts)
    ensures !IsPoison(Text([("job", Str(job)), ("trace_id", Str(trace)), ("data", data),
                            ("meta", Obj(MetaOf(id, queue, lang, version, created))), ("attempts", Int(attempts))]),
                              true)
  {
    MetaIsTyped(id, queue, lang, version, created);
    OrdinaryTop(job, trace, data, Obj(MetaOf(id, queue, lang, version, created)), attempts);
  }

  lemma OrdinaryTop(job: string, trace: string, data: Json, meta: Json, attempts: int)
    requires Named(Str(job)) && data.Obj? && AllFinite(data) && Int64(attempts) && !MemberMistyped(("meta", meta))
    ensures !IsPoison(Text([("job", Str(job)), ("trace_id", Str(trace)), ("data", data), ("meta", meta),
                            ("attempts", Int(attempts))]), true)
  {
    var d := [("job", Str(job)), ("trace_id", Str(trace)), ("data", data), ("meta", meta), ("attempts", Int(attempts))];
    forall i | 0 <= i < |d| ensures !MemberMistyped(d[i]) && (i > 0 ==> d[i].0 != "job") {
      assert d[0].0 == "job" && d[1].0 == "trace_id" && d[2].0 == "data" && d[3].0 == "meta" && d[4].0 == "attempts";
    }
    TypedIsNoPoison(d);
  }

  lemma TypedIsNoPoison(d: Pairs)
    requires forall i :: 0 <= i < |d| ==> !MemberMistyped(d[i]) && (i > 0 ==> d[i].0 != "job")
    requires d != [] && d[0].0 == "job" && Named(d[0].1)
    ensures !IsPoison(Text(d), true)
  {
    PoisonIff(Obj(d), false);
    NamelessIff(d, false);
    assert LastNamed(d, "job");
  }

  // ---- Forbidden keys -------------------------------------------------------------------------

  datatype Forbidden = Forbidden(container: Option<string>, key: string)

  const FORBIDDEN: seq<Forbidden> := [
    Forbidden(None, "timestamp"), Forbidden(Some("meta"), "max_retries"), Forbidden(Some("meta"), "attempts"),
    Forbidden(Some("meta"), "source"), Forbidden(Some("meta"), "ts")]

  predicate Carries(d: Pairs, f: Forbidden) {
    match f.container
    case None => Get(d, f.key).Some?
    case Some(c) => Get(d, c).Some? && Get(d, c).value.Obj? && Get(Get(d, c).value.members, f.key).Some?
  }

  function StripOne(d: Pairs, f: Forbidden): Pairs {
    if !Carries(d, f) then d
    else match f.container
      case None => Del(d, f.key)
      case Some(c) => Put(d, c, Obj(Del(Get(d, c).value.members, f.key)))
  }

  function Strip(d: Pairs, keys: seq<Forbidden>): Pairs
    decreases |keys|
  {
    if keys == [] then d else Strip(StripOne(d, keys[0]), keys[1..])
  }

  // `_fold_identity`
  function Fold(d: Pairs): Pairs {
    FoldAlias(Strip(d, FORBIDDEN))
  }

  function FoldAlias(e: Pairs): Pairs {
    var alias := Get(e, "urn");
    if alias.None? then e
    else if !ValidUrn(Get(e, "job")) && ValidUrn(alias) then Put(Del(e, "urn"), "job", alias.value)
    else Del(e, "urn")
  }

  // `decode_lenient`
  function Decode(b: Body): Pairs {
    if b.Doc? && b.root.Obj? then Fold(Load(b.root).members) else []
  }

  predicate EncodeRefuses(d: Pairs) {
    (exists i :: 0 <= i < |FORBIDDEN| && Carries(d, FORBIDDEN[i])) || Get(d, "urn").Some?
  }

  // A forbidden key, by its name: one at the top and four in the meta block.
  ghost predicate ForbiddenAt(d: Pairs, key: string) {
    || (key == "timestamp" && Get(d, key).Some?)
    || (key in {"max_retries", "attempts", "source", "ts"}
        && Get(d, "meta").Some? && Get(d, "meta").value.Obj? && Get(Get(d, "meta").value.members, key).Some?)
  }

  lemma CarriesByName(d: Pairs, i: nat)
    requires i < |FORBIDDEN|
    ensures FORBIDDEN[i].key == ["timestamp", "max_retries", "attempts", "source", "ts"][i]
    ensures Carries(d, FORBIDDEN[i]) <==> ForbiddenAt(d, FORBIDDEN[i].key)
  {
  }

  // Encoding raises exactly for the alias and for those, and else writes the dictionary.
  lemma EncodeRefusesIff(d: Pairs)
    ensures Encode(d) == None <==> Get(d, "urn").Some? || exists key :: ForbiddenAt(d, key)
    ensures Encode(d).Some? ==> Encode(d).value.Doc? && Encode(d).value.root == Obj(d)
  {
    if i :| 0 <= i < |FORBIDDEN| && Carries(d, FORBIDDEN[i]) { CarriesByName(d, i); }
    if key :| ForbiddenAt(d, key) {
      var i := if key == "timestamp" then 0 else if key == "max_retries" then 1 else if key == "attempts" then 2
               else if key == "source" then 3 else 4;
      CarriesByName(d, i);
      assert Carries(d, FORBIDDEN[i]);
    }
  }

  // `encode`: None when it raises. A number that is not finite is written as a word.
  function Encode(d: Pairs): Option<Body> {
    if EncodeRefuses(d) then None
    else Some(Doc(Obj(d), !FloatsFinite(Obj(d))))
  }

  // ---- A hop ------------------------------------------------------------------------------------

  // Decode, set the attempts, encode.
  function Hop(b: Body, n: int): Option<Body> {
    Encode(Put(Decode(b), "attempts", Int(n)))
  }

  // A dictionary as a parser returns it.
  ghost predicate ProperDict(d: Pairs) {
    Distinct(d) && forall p :: p in d ==> Proper(p.1)
  }

  lemma ProperDicts(d: Pairs)
    ensures ProperDict(d) <==> Proper(Obj(d))
  {
    if Proper(Obj(d)) {
      forall p | p in d ensures Proper(p.1) {
        var i :| 0 <= i < |d| && d[i] == p;
      }
    }
  }

  lemma DelKeeps(d: Pairs, key: string)
    requires ProperDict(d)
    ensures ProperDict(Del(d, key))
    ensures TopOk(d) ==> TopOk(Del(d, key))
    ensures forall kinds :: FlatOk(d, kinds) ==> FlatOk(Del(d, key), kinds)
  {
    DelIs(d, key);
  }

  lemma PutKeeps(d: Pairs, key: string, v: Json)
    requires ProperDict(d) && Proper(v)
    ensures ProperDict(Put(d, key, v))
    ensures TopOk(d) && MemberOk(key, v) ==> TopOk(Put(d, key, v))
  {
    PutIs(d, key, v);
  }

  // A forbidden key is at the top or in `meta`.
  predicate Placed(f: Forbidden) {
    f.container == None || f.container == Some("meta")
  }

  lemma StripOneKeeps(d: Pairs, f: Forbidden)
    requires ProperDict(d) && Placed(f)
    ensures ProperDict(StripOne(d, f)) && (TopOk(d) ==> TopOk(StripOne(d, f)))
  {
    if Carries(d, f) {
      if f.container.None? {
        DelKeeps(d, f.key);
      } else {
        var m := Get(d, "meta").value;
        GetIs(d, "meta");
        assert ("meta", m) in d;
        ProperDicts(m.members);
        DelKeeps(m.members, f.key);
        ProperDicts(Del(m.members, f.key));
        assert TopOk(d) ==> FlatOk(m.members, MetaKinds);
        PutKeeps(d, "meta", Obj(Del(m.members, f.key)));
      }
    }
  }

  // The key is gone, and no other forbidden key appears; what the other members are stays.
  lemma StripOneStrips(d: Pairs, f: Forbidden, g: Forbidden, k: string)
    requires ProperDict(d) && Placed(f) && Placed(g)
    ensures !Carries(StripOne(d, f), f)
    ensures !Carries(d, g) ==> !Carries(StripOne(d, f), g)
    ensures k != "meta" && f != Forbidden(None, k) ==> Get(StripOne(d, f), k) == Get(d, k)
  {
    if Carries(d, f) {
      if f.container.None? {
        DelIs(d, f.key);
      } else {
        var m := Get(d, "meta").value;
        GetIs(d, "meta");
        assert ("meta", m) in d;
        ProperDicts(m.members);
        DelIs(m.members, f.key);
        PutIs(d, "meta", Obj(Del(m.members, f.key)));
      }
    }
  }

  // Stripping one forbidden key spares every other one.
  lemma StripOneSpares(d: Pairs, f: Forbidden, g: Forbidden)
    requires ProperDict(d) && Placed(f) && Placed(g) && f != g
    requires f.container == None ==> f.key != "meta"
    requires g.container == None ==> g.key != "meta"
    ensures Carries(StripOne(d, f), g) == Carries(d, g)
  {
    if Carries(d, f) {
      if f.container.None? {
        DelIs(d, f.key);
      } else {
        var m := Get(d, "meta").value;
        DelIs(m.members, f.key);
        PutIs(d, "meta", Obj(Del(m.members, f.key)));
      }
    }
  }

  lemma ForbiddenAreApart(i: nat, k: nat)
    requires i < k < |FORBIDDEN|
    ensures FORBIDDEN[i] != FORBIDDEN[k]
    ensures FORBIDDEN[i].container == None ==> FORBIDDEN[i].key != "meta"
    ensures FORBIDDEN[k].container == None ==> FORBIDDEN[k].key != "meta"
  {
    assert "timestamp"[0] != "meta"[0] && "max_retries"[1] != "attempts"[1];
    assert "max_retries"[0] != "source"[0] && |"ts"| == 2;
  }

  ghost predicate Clean(d: Pairs, keys: seq<Forbidden>) {
    forall i :: 0 <= i < |keys| ==> !Carries(d, keys[i])
  }

  ghost predicate AllPlaced(keys: seq<Forbidden>) {
    forall i :: 0 <= i < |keys| ==> Placed(keys[i])
  }

  lemma {:induction false} StripKeeps(d: Pairs, keys: seq<Forbidden>)
    requires ProperDict(d) && AllPlaced(keys)
    ensures ProperDict(Strip(d, keys)) && (TopOk(d) ==> TopOk(Strip(d, keys)))
    decreases |keys|
  {
    if keys != [] {
      StripOneKeeps(d, keys[0]);
      StripKeeps(StripOne(d, keys[0]), keys[1..]);
    }
  }

  lemma {:induction false} StripLeaves(d: Pairs, keys: seq<Forbidden>, k: string)
    requires ProperDict(d) && AllPlaced(keys)
    requires k != "meta" && forall i :: 0 <= i < |keys| ==> keys[i] != Forbidden(None, k)
    ensures Get(Strip(d, keys), k) == Get(d, k)
    decreases |keys|
  {
    if keys != [] {
      StripOneKeeps(d, keys[0]);
      StripOneStrips(d, keys[0], keys[0], k);
      StripLeaves(StripOne(d, keys[0]), keys[1..], k);
    }
  }

  lemma {:induction false} StripStays(d: Pairs, keys: seq<Forbidden>, g: Forbidden)
    requires ProperDict(d) && AllPlaced(keys) && Placed(g) && !Carries(d, g)
    ensures !Carries(Strip(d, keys), g)
    decreases |keys|
  {
    if keys != [] {
      StripOneKeeps(d, keys[0]);
      StripOneStrips(d, keys[0], g, "");
      StripStays(StripOne(d, keys[0]), keys[1..], g);
    }
  }

  lemma {:induction false} StripStrips(d: Pairs, keys: seq<Forbidden>, i: nat)
    requires ProperDict(d) && AllPlaced(keys) && i < |keys|
    ensures !Carries(Strip(d, keys), keys[i])
    decreases |keys|
  {
    var e := StripOne(d, keys[0]);
    StripOneKeeps(d, keys[0]);
    if i == 0 {
      StripOneStrips(d, keys[0], keys[0], "");
      StripStays(e, keys[1..], keys[0]);
    } else {
      StripStrips(e, keys[1..], i - 1);
    }
  }

  lemma {:induction false} StripOfClean(d: Pairs, keys: seq<Forbidden>)
    requires Clean(d, keys)
    ensures Strip(d, keys) == d
    decreases |keys|
  {
    if keys != [] {
      assert !Carries(d, keys[0]);
      forall i | 0 <= i < |keys[1..]| ensures !Carries(d, keys[1..][i]) { assert keys[1..][i] == keys[i + 1]; }
      StripOfClean(d, keys[1..]);
    }
  }

  lemma ForbiddenArePlaced()
    ensures AllPlaced(FORBIDDEN)
    ensures forall i :: 0 <= i < |FORBIDDEN| && FORBIDDEN[i].container == None ==> FORBIDDEN[i].key == "timestamp"
  {
  }

  lemma CleanLike(d: Pairs, e: Pairs, keys: seq<Forbidden>)
    requires Clean(d, keys) && AllPlaced(keys)
    requires forall i :: 0 <= i < |keys| && keys[i].container == None ==> keys[i].key == "timestamp"
    requires Get(e, "timestamp") == Get(d, "timestamp") && Get(e, "meta") == Get(d, "meta")
    ensures Clean(e, keys)
  {
    forall i | 0 <= i < |keys| ensures !Carries(e, keys[i]) { assert !Carries(d, keys[i]); }
  }

  // ---- The alias ---------------------------------------------------------------------------------

  lemma AliasKeeps(e: Pairs)
    requires ProperDict(e)
    ensures ProperDict(FoldAlias(e)) && (TopOk(e) ==> TopOk(FoldAlias(e)))
  {
    var alias := Get(e, "urn");
    if alias.Some? {
      GetIs(e, "urn");
      assert ("urn", alias.value) in e;
      DelKeeps(e, "urn");
      PutKeeps(Del(e, "urn"), "job", alias.value);
    }
  }

  lemma AliasLeaves(e: Pairs, k: string)
    requires ProperDict(e)
    ensures k != "job" && k != "urn" ==> Get(FoldAlias(e), k) == Get(e, k)
    ensures Get(FoldAlias(e), "urn") == None
    ensures ValidUrn(Get(e, "job")) ==> Get(FoldAlias(e), "job") == Get(e, "job")
    ensures !ValidUrn(Get(e, "job")) && ValidUrn(Get(e, "urn")) ==> Get(FoldAlias(e), "job") == Get(e, "urn")
    ensures !ValidUrn(Get(e, "urn")) ==> Get(FoldAlias(e), "job") == Get(e, "job")
  {
    var alias := Get(e, "urn");
    if alias.Some? {
      DelIs(e, "urn");
      PutIs(Del(e, "urn"), "job", alias.value);
    }
  }

  // ---- Decode --------------------------------------------------------------------------------------

  // A document decodes into a proper dictionary, well typed when the document is.
  lemma FoldKeeps(d: Pairs)
    requires ProperDict(d)
    ensures ProperDict(Fold(d)) && (TopOk(d) ==> TopOk(Fold(d)))
  {
    ForbiddenArePlaced();
    StripKeeps(d, FORBIDDEN);
    AliasKeeps(Strip(d, FORBIDDEN));
  }

  // The members that decode may change.
  predicate Normalised(k: string) {
    k == "job" || k == "urn" || k == "timestamp" || k == "meta"
  }

  lemma FoldLeaves(d: Pairs, k: string)
    requires ProperDict(d)
    ensures !Normalised(k) ==> Get(Fold(d), k) == Get(d, k)
  {
    ForbiddenArePlaced();
    StripKeeps(d, FORBIDDEN);
    AliasLeaves(Strip(d, FORBIDDEN), k);
    if !Normalised(k) { StripLeaves(d, FORBIDDEN, k); }
  }

  // It keeps the identity of the body, in `job`.
  lemma FoldKeepsUrn(d: Pairs)
    requires ProperDict(d)
    ensures Urn(Fold(d)) == Urn(d) && Get(Fold(d), "urn") == None
    ensures ValidUrn(Get(Fold(d), "job")) <==> ValidUrn(Get(d, "job")) || ValidUrn(Get(d, "urn"))
  {
    ForbiddenArePlaced();
    StripKeeps(d, FORBIDDEN);
    StripLeaves(d, FORBIDDEN, "job");
    StripLeaves(d, FORBIDDEN, "urn");
    AliasLeaves(Strip(d, FORBIDDEN), "job");
  }

  // It carries no forbidden key.
  lemma FoldIsClean(d: Pairs)
    requires ProperDict(d)
    ensures Clean(Fold(d), FORBIDDEN)
  {
    ForbiddenArePlaced();
    var e := Strip(d, FORBIDDEN);
    StripKeeps(d, FORBIDDEN);
    forall i | 0 <= i < |FORBIDDEN| ensures !Carries(e, FORBIDDEN[i]) { StripStrips(d, FORBIDDEN, i); }
    AliasLeaves(e, "timestamp");
    AliasLeaves(e, "meta");
    CleanLike(e, Fold(d), FORBIDDEN);
  }

  // The forbidden keys by their names.
  lemma FoldDropsByName(d: Pairs, block: Pairs)
    requires ProperDict(d) && Get(Fold(d), "meta") == Some(Obj(block))
    ensures Get(Fold(d), "timestamp") == None && Get(Fold(d), "urn") == None
    ensures forall k :: k in {"max_retries", "attempts", "source", "ts"} ==> Get(block, k) == None
  {
    FoldIsClean(d);
    FoldKeepsUrn(d);
    assert !Carries(Fold(d), FORBIDDEN[0]) && !Carries(Fold(d), FORBIDDEN[1]) && !Carries(Fold(d), FORBIDDEN[2]);
    assert !Carries(Fold(d), FORBIDDEN[3]) && !Carries(Fold(d), FORBIDDEN[4]);
  }

  // ---- The hop closure -----------------------------------------------------------------------------

  lemma FlatOkLoads(v: Json, kinds: string -> Kind)
    requires v.Obj? && FlatOk(v.members, kinds)
    ensures FlatOk(Load(v).members, kinds)
  {
    forall p | p in Load(v).members ensures LeafOk(kinds(p.0), p.1) {
      var i := LoadedMember(v, p);
      assert v.members[i] in v.members;
      LoadKeepsFinite(v.members[i].1);
    }
  }

  // Parsing keeps the types, whatever occurrence of a repeated member wins.
  lemma TopOkLoads(j: Json)
    requires j.Obj? && TopOk(j.members)
    ensures TopOk(Load(j).members)
  {
    forall p | p in Load(j).members ensures MemberOk(p.0, p.1) {
      var i := LoadedMember(j, p);
      var v := j.members[i].1;
      assert j.members[i] in j.members && MemberOk(p.0, v);
      LoadKeepsFinite(v);
      if TopKind(p.0).MetaKind? && v.Obj? { FlatOkLoads(v, MetaKinds); }
      if TopKind(p.0).DeadLetterKind? && v.Obj? { FlatOkLoads(v, DeadLetterKinds); }
    }
  }

  // A dictionary in normal form: what decode returns for a body that is no poison.
  ghost predicate Normal(d: Pairs, requireIdentity: bool) {
    && ProperDict(d) && TopOk(d) && Clean(d, FORBIDDEN) && Get(d, "urn") == None
    && (requireIdentity ==> ValidUrn(Get(d, "job")))
  }

  lemma DecodedIsNormal(b: Body, requireIdentity: bool)
    requires !IsPoison(b, requireIdentity)
    ensures Normal(Decode(b), requireIdentity)
  {
    var d := Load(b.root).members;
    LoadIsProper(b.root);
    ProperDicts(d);
    TopOkLoads(b.root);
    FoldKeeps(d);
    FoldKeepsUrn(d);
    FoldIsClean(d);
  }

  lemma {:induction false} PutTwice(d: Pairs, key: string, a: Json, b: Json)
    ensures Put(Put(d, key, a), key, b) == Put(d, key, b)
  {
    if d != [] && d[0].0 != key {
      PutTwice(d[1..], key, a, b);
      assert Put(d, key, a)[1..] == Put(d[1..], key, a);
    }
  }

  lemma NormalWithAttempts(d: Pairs, n: int, requireIdentity: bool)
    requires Normal(d, requireIdentity) && Int64(n)
    ensures Normal(Put(d, "attempts", Int(n)), requireIdentity)
  {
    PutIs(d, "attempts", Int(n));
    PutKeeps(d, "attempts", Int(n));
    ForbiddenArePlaced();
    CleanLike(d, Put(d, "attempts", Int(n)), FORBIDDEN);
  }

  // A dictionary in normal form encodes, and the document decodes into it and is no poison.
  lemma NormalDecodes(d: Pairs, requireIdentity: bool)
    requires Normal(d, requireIdentity)
    ensures !EncodeRefuses(d) && forall words :: Decode(Doc(Obj(d), words)) == d
  {
    ProperDicts(d);
    LoadOfProper(Obj(d));
    StripOfClean(d, FORBIDDEN);
  }

  lemma NormalIsNoPoison(d: Pairs, requireIdentity: bool)
    requires Normal(d, requireIdentity)
    ensures !IsPoison(Text(d), requireIdentity)
  {
    ProperDicts(d);
    LoadOfProper(Obj(d));
  }

  ghost predicate MembersFinite(d: Pairs) {
    forall p :: p in d ==> FloatsFinite(p.1)
  }

  lemma ObjIsFinite(d: Pairs)
    ensures FloatsFinite(Obj(d)) <==> MembersFinite(d)
  {
    if FloatsFinite(Obj(d)) {
      forall p | p in d ensures FloatsFinite(p.1) {
        var i :| 0 <= i < |d| && d[i] == p;
      }
    }
    if MembersFinite(d) {
      forall i | 0 <= i < |d| ensures FloatsFinite(d[i].1) { assert d[i] in d; }
    }
  }

  // A member other than the attempts comes through setting them.
  lemma OthersStayIn(d: Pairs, n: int, p: (string, Json))
    requires Distinct(d) && p in d && p.0 != "attempts"
    ensures p in Put(d, "attempts", Int(n))
  {
    var i :| 0 <= i < |d| && d[i] == p;
    GetOf(d, i);
    PutIs(d, "attempts", Int(n));
    GetIs(Put(d, "attempts", Int(n)), p.0);
  }

  lemma FiniteWithAttempts(d: Pairs, n: int)
    requires ProperDict(d) && TopOk(d)
    ensures FloatsFinite(Obj(Put(d, "attempts", Int(n)))) <==> FloatsFinite(Obj(d))
  {
    var e := Put(d, "attempts", Int(n));
    ObjIsFinite(d);
    ObjIsFinite(e);
    PutIs(d, "attempts", Int(n));
    forall p | p in d && !FloatsFinite(p.1) ensures p in e {
      assert MemberOk(p.0, p.1);
      OthersStayIn(d, n, p);
    }
  }

  // Decode, set the attempts, encode: never refused, and poison afterwards exactly when the
  // document holds a number that is not finite, which the poison rule looks for in `data` alone.
  lemma HopIsClean(b: Body, requireIdentity: bool, n: int)
    requires !IsPoison(b, requireIdentity) && Int64(n)
    ensures var d := Put(Decode(b), "attempts", Int(n));
      Hop(b, n) == Some(Doc(Obj(d), !FloatsFinite(Obj(Decode(b))))) && Decode(Hop(b, n).value) == d
    ensures IsPoison(Hop(b, n).value, requireIdentity) <==> !FloatsFinite(Obj(Decode(b)))
  {
    var d := Put(Decode(b), "attempts", Int(n));
    DecodedIsNormal(b, requireIdentity);
    NormalWithAttempts(Decode(b), n, requireIdentity);
    NormalDecodes(d, requireIdentity);
    NormalIsNoPoison(d, requireIdentity);
    FiniteWithAttempts(Decode(b), n);
  }

  // The identity and every member but the attempts, the alias and the forbidden keys come
  // through: e is what the next decode returns.
  lemma HopKeepsMembers(b: Body, requireIdentity: bool, n: int, k: string)
    requires !IsPoison(b, requireIdentity) && Int64(n)
    ensures var was, e := Load(b.root).members, Put(Decode(b), "attempts", Int(n));
      && Hop(b, n).Some? && Decode(Hop(b, n).value) == e
      && Urn(e) == Urn(was) && Get(e, "attempts") == Some(Int(n))
      && (!Normalised(k) && k != "attempts" ==> Get(e, k) == Get(was, k))
  {
    HopIsClean(b, requireIdentity, n);
    DecodedIsNormal(b, requireIdentity);
    NormalWithAttempts(Decode(b), n, requireIdentity);
    NormalDecodes(Put(Decode(b), "attempts", Int(n)), requireIdentity);
    MembersThrough(b.root, n, k);
  }

  lemma UrnWithAttempts(d: Pairs, n: int)
    ensures Urn(Put(d, "attempts", Int(n))) == Urn(d)
  {
    PutIs(d, "attempts", Int(n));
  }

  lemma MembersThrough(j: Json, n: int, k: string)
    requires j.Obj?
    ensures var was, e := Load(j).members, Put(Fold(Load(j).members), "attempts", Int(n));
      && Urn(e) == Urn(was) && Get(e, "attempts") == Some(Int(n))
      && (!Normalised(k) && k != "attempts" ==> Get(e, k) == Get(was, k))
  {
    var was := Load(j).members;
    LoadIsProper(j);
    ProperDicts(was);
    FoldLeaves(was, k);
    FoldKeepsUrn(was);
    UrnWithAttempts(Fold(was), n);
    PutIs(Fold(was), "attempts", Int(n));
  }

  // A member of the `meta` block.
  function MetaGet(d: Pairs, x: string): Option<Json> {
    if Get(d, "meta").Some? && Get(d, "meta").value.Obj? then Get(Get(d, "meta").value.members, x) else None
  }

  lemma {:induction false} StripLeavesMeta(d: Pairs, keys: seq<Forbidden>, x: string)
    requires ProperDict(d) && AllPlaced(keys)
    requires forall i :: 0 <= i < |keys| ==> keys[i] != Forbidden(Some("meta"), x) && keys[i] != Forbidden(None, "meta")
    ensures MetaGet(Strip(d, keys), x) == MetaGet(d, x)
    decreases |keys|
  {
    if keys != [] {
      StripOneKeeps(d, keys[0]);
      StripOneLeavesMeta(d, keys[0], x);
      StripLeavesMeta(StripOne(d, keys[0]), keys[1..], x);
    }
  }

  lemma StripOneLeavesMeta(d: Pairs, f: Forbidden, x: string)
    requires ProperDict(d) && Placed(f) && f != Forbidden(Some("meta"), x) && f != Forbidden(None, "meta")
    ensures MetaGet(StripOne(d, f), x) == MetaGet(d, x)
  {
    if Carries(d, f) {
      if f.container.None? {
        DelIs(d, f.key);
      } else {
        var m := Get(d, "meta").value;
        DelIs(m.members, f.key);
        PutIs(d, "meta", Obj(Del(m.members, f.key)));
      }
    }
  }

  // Every member of `meta` that is not forbidden comes through a hop as well.
  lemma HopKeepsMeta(j: Json, n: int, x: string)
    requires j.Obj? && forall i :: 0 <= i < |FORBIDDEN| ==> FORBIDDEN[i] != Forbidden(Some("meta"), x)
    ensures var was, e := Load(j).members, Put(Fold(Load(j).members), "attempts", Int(n));
      MetaGet(e, x) == MetaGet(was, x)
  {
    var was := Load(j).members;
    LoadIsProper(j);
    ProperDicts(was);
    ForbiddenArePlaced();
    StripKeeps(was, FORBIDDEN);
    NoneIsTopMeta();
    StripLeavesMeta(was, FORBIDDEN, x);
    AliasLeaves(Strip(was, FORBIDDEN), "meta");
    PutIs(Fold(was), "attempts", Int(n));
  }

  lemma NoneIsTopMeta()
    ensures forall i :: 0 <= i < |FORBIDDEN| ==> FORBIDDEN[i] != Forbidden(None, "meta")
  {
  }

  // ---- Runs of hops --------------------------------------------------------------------------------

  type Hopper = (Body, int) -> Option<Body>

  function Repeat(hop: Hopper, b: Body, counts: seq<int>): Option<Body>
    decreases |counts|
  {
    if counts == [] then Some(b)
    else
      var next := hop(b, counts[0]);
      if next.None? then None else Repeat(hop, next.value, counts[1..])
  }

  function Hops(b: Body, counts: seq<int>): Option<Body> {
    Repeat(Hop, b, counts)
  }

  // Hops that move between the encodings of dictionaries of one kind, each setting its count over
  // the one before, do what the last one does.
  lemma {:induction false} RepeatSets(hop: Hopper, good: Pairs -> bool, set_: (Pairs, int) -> Pairs,
                                      write: Pairs -> Body,
                                      d: Pairs, counts: seq<int>)
    requires forall x, n :: good(x) && Int64(n) ==> hop(write(x), n) == Some(write(set_(x, n))) && good(set_(x, n))
    requires forall x, m, n :: set_(set_(x, m), n) == set_(x, n)
    requires good(d) && counts != [] && forall i :: 0 <= i < |counts| ==> Int64(counts[i])
    ensures var e := set_(d, counts[|counts| - 1]); Repeat(hop, write(d), counts) == Some(write(e)) && good(e)
    decreases |counts|
  {
    if |counts| == 1 {
      assert counts[1..] == [];
    } else {
      RepeatSets(hop, good, set_, write, set_(d, counts[0]), counts[1..]);
    }
  }

  lemma NormalHop(d: Pairs, requireIdentity: bool, n: int)
    requires Normal(d, requireIdentity) && FloatsFinite(Obj(d)) && Int64(n)
    ensures var e := Put(d, "attempts", Int(n));
      Hop(Text(d), n) == Some(Text(e)) && Normal(e, requireIdentity) && FloatsFinite(Obj(e))
  {
    NormalIsNoPoison(d, requireIdentity);
    NormalDecodes(d, requireIdentity);
    HopIsClean(Text(d), requireIdentity, n);
    NormalWithAttempts(d, n, requireIdentity);
    FiniteWithAttempts(d, n);
  }

  // Normal, with every float finite.
  ghost predicate Sound(d: Pairs, requireIdentity: bool) {
    Normal(d, requireIdentity) && FloatsFinite(Obj(d))
  }

  lemma SoundHops(d: Pairs, requireIdentity: bool, counts: seq<int>)
    requires Sound(d, requireIdentity) && counts != [] && forall i :: 0 <= i < |counts| ==> Int64(counts[i])
    ensures var e := Put(d, "attempts", Int(counts[|counts| - 1]));
      Hops(Text(d), counts) == Some(Text(e)) && Sound(e, requireIdentity)
  {
    var good: Pairs -> bool := x => Sound(x, requireIdentity);
    var put: (Pairs, int) -> Pairs := (x: Pairs, n: int) => Put(x, "attempts", Int(n));
    var write: Pairs -> Body := (x: Pairs) => Text(x);
    forall x, n | good(x) && Int64(n) ensures Hop(write(x), n) == Some(write(put(x, n))) && good(put(x, n)) {
      NormalHop(x, requireIdentity, n);
    }
    forall x, m, n ensures put(put(x, m), n) == put(x, n) { PutTwice(x, "attempts", Int(m), Int(n)); }
    RepeatSets(Hop, good, put, write, d, counts);
  }

  // Any number of hops: never refused, never poison, and the last body is the first decode with
  // the last count.
  lemma HopsAreClean(b: Body, requireIdentity: bool, counts: seq<int>)
    requires !IsPoison(b, requireIdentity) && FloatsFinite(Obj(Decode(b))) && counts != []
    requires forall i :: 0 <= i < |counts| ==> Int64(counts[i])
    ensures var e := Put(Decode(b), "attempts", Int(counts[|counts| - 1]));
      Hops(b, counts) == Some(Text(e)) && !IsPoison(Text(e), requireIdentity)
  {
    var d := Decode(b);
    var last := counts[|counts| - 1];
    DecodedIsNormal(b, requireIdentity);
    SoundHops(d, requireIdentity, counts);
    HopsFromDecoded(b, d, requireIdentity, counts);
    NormalIsNoPoison(Put(d, "attempts", Int(last)), requireIdentity);
  }

  // The first hop of a body is the first hop of what it decodes into.
  lemma HopsFromDecoded(b: Body, d: Pairs, requireIdentity: bool, counts: seq<int>)
    requires d == Decode(b) && Normal(d, requireIdentity) && counts != []
    ensures Hops(b, counts) == Hops(Text(d), counts)
  {
    NormalDecodes(d, requireIdentity);
    assert Hop(b, counts[0]) == Hop(Text(d), counts[0]);
  }

  // A document with a number that is not finite is no poison, and poison after one hop.
  lemma InfinityTurnsPoison(urn: string)
    requires ValidUrn(Some(Str(urn)))
    ensures var b := Text([("job", Str(urn)), ("x", Float(false, 0))]);
      !IsPoison(b, true) && Hop(b, 1).Some? && IsPoison(Hop(b, 1).value, true)
  {
    var d := [("job", Str(urn)), ("x", Float(false, 0))];
    TwoMembersAreNormal(urn, Float(false, 0));
    NormalIsNoPoison(d, true);
    NormalDecodes(d, true);
    assert !FloatsFinite(d[1].1);
    HopIsClean(Text(d), true, 1);
  }

  lemma TwoMembersAreNormal(urn: string, x: Json)
    requires ValidUrn(Some(Str(urn))) && x.Float?
    ensures Normal([("job", Str(urn)), ("x", x)], true)
  {
    var d := [("job", Str(urn)), ("x", x)];
    GetUnder(d, "timestamp");
    GetUnder(d, "meta");
    GetUnder(d, "urn");
    ForbiddenArePlaced();
    CleanLike([], d, FORBIDDEN);
  }

  lemma GetUnder(d: Pairs, key: string)
    requires |d| == 2 && d[0].0 != key && d[1].0 != key
    ensures Get(d, key) == None
  {
    GetIs(d, key);
  }

  // ---- In place ----------------------------------------------------------------------------------------

  /** A decoded envelope that is normalised in place. */
  class EnvelopeDict {
    var members: Pairs

    constructor (members: Pairs)
      ensures this.members == members
    {
      this.members := members;
    }

    /** `strip_forbidden_keys`: it reports exactly the forbidden keys the envelope carried. */
    method StripForbiddenKeys() returns (dropped: seq<Forbidden>)
      requires ProperDict(members)
      modifies this
      ensures members == Strip(old(members), FORBIDDEN)
      ensures forall f :: f in dropped <==> f in FORBIDDEN && Carries(old(members), f)
    {
      dropped := [];
      ForbiddenArePlaced();
      for i := 0 to |FORBIDDEN|
        invariant ProperDict(members)
        invariant Strip(members, FORBIDDEN[i..]) == Strip(old(members), FORBIDDEN)
        invariant forall k :: i <= k < |FORBIDDEN| ==>
          Carries(members, FORBIDDEN[k]) == Carries(old(members), FORBIDDEN[k])
        invariant forall f :: f in dropped <==> f in FORBIDDEN[..i] && Carries(old(members), f)
      {
        var f := FORBIDDEN[i];
        assert FORBIDDEN[i..][1..] == FORBIDDEN[i + 1..];
        assert FORBIDDEN[..i + 1] == FORBIDDEN[..i] + [f];
        StripOneKeeps(members, f);
        forall k | i < k < |FORBIDDEN|
          ensures Carries(StripOne(members, f), FORBIDDEN[k]) == Carries(members, FORBIDDEN[k])
        {
          ForbiddenAreApart(i, k);
          StripOneSpares(members, f, FORBIDDEN[k]);
        }
        if Carries(members, f) {
          members := StripOne(members, f);
          dropped := dropped + [f];
        }
      }
      assert FORBIDDEN[..|FORBIDDEN|] == FORBIDDEN;
    }

    /** `_fold_identity` */
    method FoldIdentity()
      requires ProperDict(members)
      modifies this
      ensures members == Fold(old(members))
    {
      var dropped := StripForbiddenKeys();
      var alias := Get(members, "urn");
      if alias.Some? {
        DelIs(members, "urn");
        members := Del(members, "urn");
        if !ValidUrn(Get(members, "job")) && ValidUrn(alias) {
          members := Put(members, "job", alias.value);
        }
      }
    }
  }
}
