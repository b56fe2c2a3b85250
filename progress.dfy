/**
 * Per-user study progress: the progress write (`update_cloud_node`) and the
 * progress pull (`sync_user_data`) over one user's progress collection.
 *
 * A study point is named by the key `"{subject_id}_{title}"`; its document
 * id is a digest of that key, given here as the function parameter `md5`
 * and not assumed injective.
 */
module Progress {
  import opened Wrappers
  import opened Firestore

  const SubjectField: string := "subject_id"
  const TitleField: string := "title"
  const UpdatedField: string := "update_at"
  const MasteredField: string := "is_mastered"
  const DifficultField: string := "is_difficult"

  /** The point key `f"{sid}_{title}"`, used both as the digest input and as
      the session key. */
  function PointKey(sid: string, title: string): (k: string)
    ensures |k| == |sid| + 1 + |title|
    ensures k[..|sid|] == sid && k[|sid|] == '_' && k[|sid| + 1..] == title
  {
    sid + "_" + title
  }

  /** The wire encoding of a supplied flag. */
  function FlagValue(b: bool): (v: int)
    ensures v == 0 || v == 1
    ensures v == 1 <==> b
  {
    if b then 1 else 0
  }

  // ---------------------------------------------------------------------
  // Formatting of stored values, as an f-string does it

  function DigitChar(d: nat): char
    requires d < 10
  {
    "0123456789"[d]
  }

  function Decimal(n: nat): string
    decreases n
  {
    if n < 10 then [DigitChar(n)] else Decimal(n / 10) + [DigitChar(n % 10)]
  }

  /** `str(v)`: a string as itself, an integer in decimal. */
  function Render(v: Value): (r: string)
    ensures v.Str? ==> r == v.s
  {
    match v
    case Str(s) => s
    case Int(i) => if i < 0 then "-" + Decimal(-i) else Decimal(i)
  }

  // ---------------------------------------------------------------------
  // The progress write

  /** The fields `update_cloud_node` sends: always the subject, the title and
      the date; a mastery or difficulty flag only when the caller gives one. */
  function UpdatePayload(sid: string, title: string, today: string, m: Option<bool>, d: Option<bool>): (p: Payload)
    ensures PlainPayload(p)
    ensures SubjectField in p && p[SubjectField] == Put(Str(sid))
    ensures TitleField in p && p[TitleField] == Put(Str(title))
    ensures UpdatedField in p && p[UpdatedField] == Put(Str(today))
    ensures MasteredField in p <==> m.Some?
    ensures DifficultField in p <==> d.Some?
    ensures m.Some? ==> p[MasteredField] == Put(Int(FlagValue(m.value)))
    ensures d.Some? ==> p[DifficultField] == Put(Int(FlagValue(d.value)))
    ensures p.Keys <= {SubjectField, TitleField, UpdatedField, MasteredField, DifficultField}
  {
    var fixed := map[SubjectField := Put(Str(sid)), TitleField := Put(Str(title)), UpdatedField := Put(Str(today))];
    var withM := if m.Some? then fixed[MasteredField := Put(Int(FlagValue(m.value)))] else fixed;
    if d.Some? then withM[DifficultField := Put(Int(FlagValue(d.value)))] else withM
  }

  /** The user's progress collection after `update_cloud_node(sid, title, m, d)`:
      a merge-write of the payload into the document addressed by the key. */
  function WriteProgress(c: Collection, md5: string -> string, sid: string, title: string, today: string,
                         m: Option<bool>, d: Option<bool>): (r: Collection)
    ensures r.Keys == c.Keys + {md5(PointKey(sid, title))}
    ensures forall id :: id in c && id != md5(PointKey(sid, title)) ==> r[id] == c[id]
    ensures var doc := r[md5(PointKey(sid, title))];
      && SubjectField in doc && doc[SubjectField] == Str(sid)
      && TitleField in doc && doc[TitleField] == Str(title)
      && UpdatedField in doc && doc[UpdatedField] == Str(today)
      && (m.Some? ==> MasteredField in doc && doc[MasteredField] == Int(FlagValue(m.value)))
      && (d.Some? ==> DifficultField in doc && doc[DifficultField] == Int(FlagValue(d.value)))
    ensures var addr := md5(PointKey(sid, title));
      forall f :: f in r[addr] && f !in UpdatePayload(sid, title, today, m, d) ==>
        addr in c && f in c[addr] && r[addr][f] == c[addr][f]
    ensures var addr := md5(PointKey(sid, title));
      addr in c ==> forall f :: f in c[addr] && f !in UpdatePayload(sid, title, today, m, d) ==>
        f in r[addr] && r[addr][f] == c[addr][f]
  {
    SetDoc(c, md5(PointKey(sid, title)), UpdatePayload(sid, title, today, m, d), true)
  }

  /** Writing the same point twice with the same arguments leaves the
      collection as writing it once. */
  lemma WriteIdempotent(c: Collection, md5: string -> string, sid: string, title: string, today: string,
                        m: Option<bool>, d: Option<bool>)
    ensures var once := WriteProgress(c, md5, sid, title, today, m, d);
      WriteProgress(once, md5, sid, title, today, m, d) == once
  {
    MergeIdempotent(c, md5(PointKey(sid, title)), UpdatePayload(sid, title, today, m, d));
  }

  /** A write that supplies only the mastery flag keeps the difficulty flag
      of the same document, and the other way round. */
  lemma WriteKeepsOtherFlag(c: Collection, md5: string -> string, sid: string, title: string, today: string,
                            m: Option<bool>, d: Option<bool>, flag: string)
    requires (flag == MasteredField && m.None?) || (flag == DifficultField && d.None?)
    ensures var addr := md5(PointKey(sid, title));
      var r := WriteProgress(c, md5, sid, title, today, m, d);
      Get(r[addr], flag) == (if addr in c then Get(c[addr], flag) else None)
  {
  }

  // ---------------------------------------------------------------------
  // The progress pull

  predicate HasKeyFields(doc: Doc)
  {
    SubjectField in doc && TitleField in doc
  }

  /** The key `sync_user_data` builds from a stored record. */
  function KeyOf(doc: Doc): (k: string)
    requires HasKeyFields(doc)
    ensures doc[SubjectField].Str? && doc[TitleField].Str? ==>
      k == PointKey(doc[SubjectField].s, doc[TitleField].s)
  {
    Render(doc[SubjectField]) + "_" + Render(doc[TitleField])
  }

  /** `data.get(flag) == 1`. */
  predicate Flagged(doc: Doc, flag: string)
  {
    Get(doc, flag) == Some(Int(1))
  }

  /** Every record can be read by the pull without a missing-field error. */
  predicate Readable(c: Collection)
  {
    forall id :: id in c ==> HasKeyFields(c[id])
  }

  /** The keys of the records among `ids` whose `flag` is 1. */
  function FlaggedAmong(c: Collection, ids: set<string>, flag: string): set<string>
    requires forall id :: id in ids ==> id in c && HasKeyFields(c[id])
  {
    set id | id in ids && Flagged(c[id], flag) :: KeyOf(c[id])
  }

  /** The set a pull of `c` builds for `flag`. */
  function FlaggedKeys(c: Collection, flag: string): (keys: set<string>)
    requires Readable(c)
    ensures forall k :: k in keys <==> exists id :: id in c && Flagged(c[id], flag) && KeyOf(c[id]) == k
  {
    FlaggedAmong(c, c.Keys, flag)
  }

  lemma FlaggedAmongAdd(c: Collection, ids: set<string>, id: string, flag: string)
    requires forall i :: i in ids ==> i in c && HasKeyFields(c[i])
    requires id in c && HasKeyFields(c[id])
    ensures FlaggedAmong(c, ids + {id}, flag)
         == FlaggedAmong(c, ids, flag) + (if Flagged(c[id], flag) then {KeyOf(c[id])} else {})
  {
  }

  /** The fold of `sync_user_data` over the stored records: it fails, as the
      source's missing-key lookup does, exactly when some record lacks its
      subject or title, and otherwise yields the keys flagged mastered and
      the keys flagged difficult. */
  method CollectFlags(c: Collection) returns (ok: bool, mastered: set<string>, difficult: set<string>)
    ensures ok <==> Readable(c)
    ensures ok ==> mastered == FlaggedKeys(c, MasteredField) && difficult == FlaggedKeys(c, DifficultField)
  {
    ok := true;
    mastered, difficult := {}, {};
    var pending := c.Keys;
    while pending != {}
      invariant pending <= c.Keys
      invariant forall id :: id in c.Keys - pending ==> HasKeyFields(c[id])
      invariant mastered == FlaggedAmong(c, c.Keys - pending, MasteredField)
      invariant difficult == FlaggedAmong(c, c.Keys - pending, DifficultField)
      decreases pending
    {
      var id :| id in pending;
      var data := c[id];
      if !HasKeyFields(data) {
        ok := false;
        return;
      }
      var key := KeyOf(data);
      if Flagged(data, MasteredField) {
        mastered := mastered + {key};
      }
      if Flagged(data, DifficultField) {
        difficult := difficult + {key};
      }
      FlaggedAmongAdd(c, c.Keys - pending, id, MasteredField);
      FlaggedAmongAdd(c, c.Keys - pending, id, DifficultField);
      assert c.Keys - (pending - {id}) == (c.Keys - pending) + {id};
      pending := pending - {id};
    }
    assert c.Keys - pending == c.Keys;
  }

  // ---------------------------------------------------------------------
  // How writes and pulls relate

  /** Every record sits at the digest of its own key, and so can be read by
      the pull. Every record `update_cloud_node` creates is of this kind. */
  predicate WellFormed(c: Collection, md5: string -> string)
  {
    forall id :: id in c ==> HasKeyFields(c[id]) && id == md5(KeyOf(c[id]))
  }

  /** The document the key `k` addresses is absent or already holds `k`. */
  predicate NoCollision(c: Collection, md5: string -> string, k: string)
  {
    md5(k) in c ==> HasKeyFields(c[md5(k)]) && KeyOf(c[md5(k)]) == k
  }

  /** The session-side effect of supplying `flag` for key `k`. */
  function Updated(s: set<string>, k: string, flag: Option<bool>): set<string>
  {
    match flag
    case None => s
    case Some(b) => if b then s + {k} else s - {k}
  }

  /** In a well-formed collection the pulled set holds `k` exactly when the
      one document `k` addresses holds `k` with the flag at 1. */
  lemma FlaggedKeysAt(c: Collection, md5: string -> string, flag: string, k: string)
    requires WellFormed(c, md5)
    ensures k in FlaggedKeys(c, flag) <==> md5(k) in c && KeyOf(c[md5(k)]) == k && Flagged(c[md5(k)], flag)
  {
  }

  /** A record whose flag is not 1 keeps its key out of the pulled set,
      whatever the session held before the pull. */
  lemma UnflaggedRecordExcluded(c: Collection, md5: string -> string, flag: string, id: string)
    requires WellFormed(c, md5)
    requires id in c && !Flagged(c[id], flag)
    ensures KeyOf(c[id]) !in FlaggedKeys(c, flag)
  {
  }

  lemma WriteWellFormed(c: Collection, md5: string -> string, sid: string, title: string, today: string,
                        m: Option<bool>, d: Option<bool>)
    requires WellFormed(c, md5)
    ensures var r := WriteProgress(c, md5, sid, title, today, m, d);
      && WellFormed(r, md5)
      && KeyOf(r[md5(PointKey(sid, title))]) == PointKey(sid, title)
  {
    var r := WriteProgress(c, md5, sid, title, today, m, d);
    var addr := md5(PointKey(sid, title));
    assert KeyOf(r[addr]) == PointKey(sid, title);
  }

  /** One key after one write: it is pulled for `flag` exactly when the
      session's set, updated with the supplied flag, holds it, provided the
      key does not share the written address with a different stored key. */
  lemma WriteFlagAt(c: Collection, md5: string -> string, sid: string, title: string, today: string,
                    m: Option<bool>, d: Option<bool>, flag: string, v: Option<bool>, k: string)
    requires WellFormed(c, md5)
    requires (flag == MasteredField && v == m) || (flag == DifficultField && v == d)
    requires md5(k) != md5(PointKey(sid, title)) || NoCollision(c, md5, PointKey(sid, title))
    ensures var r := WriteProgress(c, md5, sid, title, today, m, d);
      WellFormed(r, md5) && (k in FlaggedKeys(r, flag) <==> k in Updated(FlaggedKeys(c, flag), PointKey(sid, title), v))
  {
    var r := WriteProgress(c, md5, sid, title, today, m, d);
    var key := PointKey(sid, title);
    var addr := md5(key);
    WriteWellFormed(c, md5, sid, title, today, m, d);
    FlaggedKeysAt(r, md5, flag, k);
    FlaggedKeysAt(c, md5, flag, k);
    if k == key {
      if v.None? {
        WriteKeepsOtherFlag(c, md5, sid, title, today, m, d, flag);
      }
    } else if md5(k) == addr {
      assert KeyOf(r[addr]) == key;
    } else if md5(k) in c {
      assert r[md5(k)] == c[md5(k)];
    }
  }

  /** One flag of one write, as the next pull sees it. */
  lemma WriteFlagPulled(c: Collection, md5: string -> string, sid: string, title: string, today: string,
                        m: Option<bool>, d: Option<bool>, flag: string, v: Option<bool>)
    requires WellFormed(c, md5)
    requires (flag == MasteredField && v == m) || (flag == DifficultField && v == d)
    ensures WellFormed(WriteProgress(c, md5, sid, title, today, m, d), md5)
    ensures var r := WriteProgress(c, md5, sid, title, today, m, d);
      && (v.Some? ==> (PointKey(sid, title) in FlaggedKeys(r, flag) <==> v.value))
      && (forall k :: md5(k) != md5(PointKey(sid, title)) ==>
            (k in FlaggedKeys(r, flag) <==> k in FlaggedKeys(c, flag)))
      && (NoCollision(c, md5, PointKey(sid, title)) ==>
            FlaggedKeys(r, flag) == Updated(FlaggedKeys(c, flag), PointKey(sid, title), v))
  {
    var r := WriteProgress(c, md5, sid, title, today, m, d);
    var key := PointKey(sid, title);
    var addr := md5(key);
    WriteWellFormed(c, md5, sid, title, today, m, d);
    if v.Some? {
      FlaggedKeysAt(r, md5, flag, key);
    }
    forall k | md5(k) != addr
      ensures k in FlaggedKeys(r, flag) <==> k in FlaggedKeys(c, flag)
    {
      WriteFlagAt(c, md5, sid, title, today, m, d, flag, v, k);
    }
    if NoCollision(c, md5, key) {
      forall k
        ensures k in FlaggedKeys(r, flag) <==> k in Updated(FlaggedKeys(c, flag), key, v)
      {
        WriteFlagAt(c, md5, sid, title, today, m, d, flag, v, k);
      }
    }
  }

  /** A write followed by a pull. The pulled sets show each supplied flag for
      the written key; keys at other addresses are unaffected; and when the
      addressed document did not belong to another key, each pulled set
      changes exactly as the session's set does on the matching toggle. */
  lemma WriteThenPull(c: Collection, md5: string -> string, sid: string, title: string, today: string,
                      m: Option<bool>, d: Option<bool>)
    requires WellFormed(c, md5)
    ensures var r := WriteProgress(c, md5, sid, title, today, m, d);
      && WellFormed(r, md5)
      && (m.Some? ==> (PointKey(sid, title) in FlaggedKeys(r, MasteredField) <==> m.value))
      && (d.Some? ==> (PointKey(sid, title) in FlaggedKeys(r, DifficultField) <==> d.value))
      && (NoCollision(c, md5, PointKey(sid, title)) ==>
            && FlaggedKeys(r, MasteredField) == Updated(FlaggedKeys(c, MasteredField), PointKey(sid, title), m)
            && FlaggedKeys(r, DifficultField) == Updated(FlaggedKeys(c, DifficultField), PointKey(sid, title), d))
  {
    WriteFlagPulled(c, md5, sid, title, today, m, d, MasteredField, m);
    WriteFlagPulled(c, md5, sid, title, today, m, d, DifficultField, d);
  }

  /** Marking a point mastered and then unmastered leaves it out of the set
      the next pull builds, whatever else the collection holds. */
  lemma MasterThenUnmaster(c: Collection, md5: string -> string, sid: string, title: string, day1: string, day2: string)
    requires WellFormed(c, md5)
    ensures var c1 := WriteProgress(c, md5, sid, title, day1, Some(true), None);
      var c2 := WriteProgress(c1, md5, sid, title, day2, Some(false), None);
      WellFormed(c2, md5) && PointKey(sid, title) !in FlaggedKeys(c2, MasteredField)
  {
    var c1 := WriteProgress(c, md5, sid, title, day1, Some(true), None);
    WriteThenPull(c, md5, sid, title, day1, Some(true), None);
    WriteThenPull(c1, md5, sid, title, day2, Some(false), None);
  }

  // ---------------------------------------------------------------------
  // The point key

  predicate NoUnderscore(s: string)
  {
    forall i :: 0 <= i < |s| ==> s[i] != '_'
  }

  /** Joining with "_" loses the boundary in general: two different points
      share a key, hence a document and a session entry. */
  lemma PointKeyAmbiguous()
    ensures PointKey("a_b", "c") == PointKey("a", "b_c")
  {
  }

  /** With subject ids free of "_" the key determines the point. */
  lemma PointKeyInjective(s1: string, t1: string, s2: string, t2: string)
    requires NoUnderscore(s1) && NoUnderscore(s2)
    requires PointKey(s1, t1) == PointKey(s2, t2)
    ensures s1 == s2 && t1 == t2
  {
    var k := PointKey(s1, t1);
    assert k[|s1|] == '_' && PointKey(s2, t2)[|s2|] == '_';
    if |s1| < |s2| {
      assert false;
    } else if |s2| < |s1| {
      assert false;
    }
    assert s1 == k[..|s1|] == s2;
    assert t1 == k[|s1| + 1..] == t2;
  }
}
