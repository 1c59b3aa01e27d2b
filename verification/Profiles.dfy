/**
 The profile file: select, save and delete, and what every sequence of them
 keeps. The file is read anew for each request and written back only on success.
 */
module Profiles {
  import opened Common
  import opened ProfileIds

  datatype SSH = SSH(host: string, port: int, username: string, password: string, authType: string)

  /** What buildTransport makes of the request. */
  datatype Transport = Transport(mode: string, settings: string)

  datatype Profile = Profile(id: string, name: string, selected: bool, ssh: SSH, transport: Transport)

  datatype File = File(profiles: seq<Profile>, selectedId: string)

  /** `transport` is None if the mode is not one of the known ones. */
  datatype Save = Save(id: string, name: string, select: bool, ssh: SSH, transport: Option<Transport>)

  // ----- reading a file -----

  predicate Has(ps: seq<Profile>, id: string) {
    exists i :: 0 <= i < |ps| && ps[i].id == id
  }

  function Ids(ps: seq<Profile>): (ids: seq<string>)
    ensures |ids| == |ps| && forall i :: 0 <= i < |ps| ==> ids[i] == ps[i].id
  {
    seq(|ps|, i requires 0 <= i < |ps| => ps[i].id)
  }

  function Used(ps: seq<Profile>): set<string> {
    set x | x in Ids(ps)
  }

  /** The position of the first profile with the id. */
  function Find(ps: seq<Profile>, id: string): (r: Option<nat>)
    ensures r.Some? ==> r.value < |ps| && ps[r.value].id == id && !Has(ps[..r.value], id)
    ensures r.None? ==> !Has(ps, id)
  {
    FindFrom(ps, id, 0)
  }

  function FindFrom(ps: seq<Profile>, id: string, from: nat): (r: Option<nat>)
    requires from <= |ps| && !Has(ps[..from], id)
    ensures r.Some? ==> r.value < |ps| && ps[r.value].id == id && !Has(ps[..r.value], id)
    ensures r.None? ==> !Has(ps, id)
    decreases |ps| - from
  {
    if from == |ps| then
      assert ps[..from] == ps;
      None
    else if ps[from].id == id then Some(from)
    else
      assert ps[..from + 1] == ps[..from] + [ps[from]];
      FindFrom(ps, id, from + 1)
  }

  function Lookup(f: File, id: string): Option<Profile> {
    var i := Find(f.profiles, id);
    if i.Some? then Some(f.profiles[i.value]) else None
  }

  // ----- the operations -----

  datatype Error = IoError | IdRequired | NotFound | HostRequired | BadPort | UserRequired | BadMode

  function Flag(ps: seq<Profile>, id: string): (r: seq<Profile>)
    ensures |r| == |ps| && forall i :: 0 <= i < |ps| ==> r[i] == ps[i].(selected := ps[i].id == id)
  {
    seq(|ps|, i requires 0 <= i < |ps| => ps[i].(selected := ps[i].id == id))
  }

  /** selectProfileByID, in memory: a miss still clears every flag. */
  function SelectIn(f: File, given: string): (File, Option<Error>) {
    var id := TrimSpace(given);
    if id == "" then (f, Some(IdRequired))
    else if Has(f.profiles, id) then (File(Flag(f.profiles, id), id), None)
    else (f.(profiles := Flag(f.profiles, id)), Some(NotFound))
  }

  function NameOf(req: Save): string {
    if TrimSpace(req.name) == "" then "SSHCustom Profile" else TrimSpace(req.name)
  }

  predicate Creates(req: Save) {
    TrimSpace(req.id) == ""
  }

  function IdOf(ps: seq<Profile>, req: Save, now: int): string {
    if Creates(req) then UniqueId(Used(ps), Slug(NameOf(req)), now) else TrimSpace(req.id)
  }

  function Check(req: Save): Option<Error> {
    if TrimSpace(req.ssh.host) == "" then Some(HostRequired)
    else if req.ssh.port <= 0 || req.ssh.port > 65535 then Some(BadPort)
    else if TrimSpace(req.ssh.username) == "" then Some(UserRequired)
    else if req.transport.None? then Some(BadMode)
    else None
  }

  /** The settings that are stored: an empty password stands for the old one. */
  function Merged(ssh: SSH, was: Option<Profile>): SSH {
    ssh.(password := if ssh.password != "" then ssh.password else if was.Some? then was.value.ssh.password else "",
         authType := if ssh.authType == "" then "password" else ssh.authType)
  }

  /** upsertProfile */
  function Upsert(f: File, req: Save, now: int): (File, Option<Error>) {
    if Check(req).Some? then (f, Check(req))
    else
      var id := IdOf(f.profiles, req, now);
      var at := if Creates(req) then None else Find(f.profiles, id);
      var was := if at.Some? then Some(f.profiles[at.value]) else None;
      var p := Profile(id, NameOf(req), false, Merged(req.ssh, was), req.transport.value);
      var ps := if at.Some? then f.profiles[at.value := p] else f.profiles + [p];
      var g := f.(profiles := ps);
      (if req.select || g.selectedId == "" || g.selectedId == id then SelectIn(g, id).0 else g, None)
  }

  function Without(ps: seq<Profile>, id: string): seq<Profile> {
    if ps == [] then []
    else (if ps[0].id == id then [] else [ps[0]]) + Without(ps[1..], id)
  }

  /** The body of the delete handler. */
  function Remove(f: File, id: string): (File, Option<Error>) {
    if id == "" then (f, Some(IdRequired))
    else if !Has(f.profiles, id) then (f, Some(NotFound))
    else (File(Without(f.profiles, id), if f.selectedId == id then "" else f.selectedId), None)
  }

  datatype Op = SaveOp(req: Save, now: int) | SelectOp(id: string) | DeleteOp(id: string)

  function Try(f: File, op: Op): (File, Option<Error>) {
    match op
    case SaveOp(req, now) => Upsert(f, req, now)
    case SelectOp(id) => SelectIn(f, id)
    case DeleteOp(id) => Remove(f, id)
  }

  /** How reading and writing the file goes; the file is replaced in one rename, or not at all. */
  datatype Io = Works | LoadFails | SaveFails

  /** One request, with the fate of its file operations. */
  datatype Request = Request(op: Op, io: Io)

  /** The answer: a delete without an id is refused before the file is read. */
  function Answer(f: File, q: Request): Option<Error> {
    if q.op == DeleteOp("") then Some(IdRequired)
    else if q.io.LoadFails? then Some(IoError)
    else if Try(f, q.op).1.Some? then Try(f, q.op).1
    else if q.io.SaveFails? then Some(IoError)
    else None
  }

  /** What is stored after the request: only a success is written. */
  function Served(f: File, q: Request): File {
    if Answer(f, q).None? then Try(f, q.op).0 else f
  }

  function ServedAll(f: File, qs: seq<Request>): File
    decreases qs
  {
    if qs == [] then f else ServedAll(Served(f, qs[0]), qs[1..])
  }

  // ----- the invariant -----

  ghost predicate Distinct(ps: seq<Profile>) {
    forall i, j :: 0 <= i < j < |ps| ==> ps[i].id != ps[j].id
  }

  ghost predicate Inv(f: File) {
    && (forall i :: 0 <= i < |f.profiles| ==> f.profiles[i].id != "")
    && Distinct(f.profiles)
    && (f.selectedId != "" ==> Has(f.profiles, f.selectedId))
    && (forall i :: 0 <= i < |f.profiles| ==> (f.profiles[i].selected <==> f.profiles[i].id == f.selectedId))
  }

  lemma {:induction false} TrimTwice(s: string)
    ensures TrimSpace(TrimSpace(s)) == TrimSpace(s)
  {
    var t := TrimLeft(s, IsSpace);
    TrimLeftDone(s);
    TrimRightDone(t);
    TrimNothing(TrimSpace(s), IsSpace);
  }

  lemma {:induction false} TrimLeftDone(s: string)
    ensures TrimLeft(s, IsSpace) != "" ==> !IsSpace(TrimLeft(s, IsSpace)[0])
  {
    if s != "" && IsSpace(s[0]) {
      TrimLeftDone(s[1..]);
    }
  }

  lemma {:induction false} TrimRightDone(s: string)
    ensures var r := TrimRight(s, IsSpace); r <= s && (r != "" ==> !IsSpace(r[|r| - 1]))
  {
    if s != "" && IsSpace(s[|s| - 1]) {
      TrimRightDone(s[..|s| - 1]);
    }
  }

  lemma {:induction false} FlagKeeps(f: File, id: string)
    requires forall i :: 0 <= i < |f.profiles| ==> f.profiles[i].id != ""
    requires Distinct(f.profiles) && Has(f.profiles, id)
    ensures Inv(File(Flag(f.profiles, id), id))
  {
    var i :| 0 <= i < |f.profiles| && f.profiles[i].id == id;
    assert Flag(f.profiles, id)[i].id == id;
  }

  lemma {:induction false} SelectKeepsInv(f: File, id: string)
    requires Inv(f) && SelectIn(f, id).1.None?
    ensures Inv(SelectIn(f, id).0)
  {
    FlagKeeps(f, TrimSpace(id));
  }

  /** A miss clears every flag in memory; it does no harm only because a failed request is not written back. */
  lemma {:induction false} MissClearsFlags(f: File, id: string)
    requires Inv(f) && SelectIn(f, id).1 == Some(NotFound)
    ensures Inv(SelectIn(f, id).0) <==> f.selectedId == ""
  {
    var g := SelectIn(f, id).0;
    FlagDistinct(f.profiles, TrimSpace(id));
    forall i | 0 <= i < |f.profiles| ensures !g.profiles[i].selected {
      assert f.profiles[i].id != TrimSpace(id);
    }
    if f.selectedId != "" {
      var i :| 0 <= i < |f.profiles| && f.profiles[i].id == f.selectedId;
      assert g.profiles[i].id == f.selectedId && !g.profiles[i].selected;
    }
  }

  lemma {:induction false} WithoutIs(ps: seq<Profile>, id: string)
    requires Distinct(ps)
    ensures Distinct(Without(ps, id))
    ensures forall p :: p in Without(ps, id) <==> p in ps && p.id != id
  {
    if ps != [] {
      assert forall i :: 0 <= i < |ps[1..]| ==> ps[1..][i] == ps[i + 1];
      WithoutIs(ps[1..], id);
      assert forall p :: p in ps <==> p == ps[0] || p in ps[1..];
      assert forall p :: p in ps[1..] ==> p.id != ps[0].id;
    }
  }

  lemma {:induction false} HasMember(ps: seq<Profile>, id: string)
    ensures Has(ps, id) <==> exists p :: p in ps && p.id == id
  {
    if Has(ps, id) {
      var i :| 0 <= i < |ps| && ps[i].id == id;
      assert ps[i] in ps;
    }
  }

  lemma {:induction false} DeleteKeepsInv(f: File, id: string)
    requires Inv(f) && Remove(f, id).1.None?
    ensures Inv(Remove(f, id).0)
    ensures !Has(Remove(f, id).0.profiles, id)
  {
    var g := Remove(f, id).0;
    WithoutIs(f.profiles, id);
    HasMember(f.profiles, f.selectedId);
    HasMember(g.profiles, g.selectedId);
    HasMember(g.profiles, id);
    forall i | 0 <= i < |g.profiles|
      ensures g.profiles[i].id != "" && (g.profiles[i].selected <==> g.profiles[i].id == g.selectedId) {
      assert g.profiles[i] in g.profiles;
    }
  }

  /** The list after a save, before anything is selected. */
  function Placed(f: File, req: Save, now: int): seq<Profile>
    requires Check(req).None?
  {
    var id := IdOf(f.profiles, req, now);
    var at := if Creates(req) then None else Find(f.profiles, id);
    var was := if at.Some? then Some(f.profiles[at.value]) else None;
    var p := Profile(id, NameOf(req), false, Merged(req.ssh, was), req.transport.value);
    if at.Some? then f.profiles[at.value := p] else f.profiles + [p]
  }

  predicate Selects(f: File, req: Save, now: int) {
    req.select || f.selectedId == "" || f.selectedId == IdOf(f.profiles, req, now)
  }

  lemma {:induction false} IdIsTrimmed(f: File, req: Save, now: int)
    ensures IdOf(f.profiles, req, now) != ""
    ensures TrimSpace(IdOf(f.profiles, req, now)) == IdOf(f.profiles, req, now)
  {
    if Creates(req) {
      UniqueIdNotBlank(Used(f.profiles), Slug(NameOf(req)), now);
    } else {
      TrimTwice(req.id);
    }
  }

  lemma {:induction false} PlacedHas(f: File, req: Save, now: int)
    requires Check(req).None?
    ensures Has(Placed(f, req, now), IdOf(f.profiles, req, now))
  {
    var id, ps := IdOf(f.profiles, req, now), Placed(f, req, now);
    var at := if Creates(req) then None else Find(f.profiles, id);
    var k := if at.Some? then at.value else |f.profiles|;
    assert ps[k].id == id;
  }

  /** A save puts one profile in place, then selects it or leaves the selection alone. */
  lemma {:induction false} UpsertIs(f: File, req: Save, now: int)
    requires Check(req).None?
    ensures var id, ps := IdOf(f.profiles, req, now), Placed(f, req, now);
      Upsert(f, req, now)
      == (if Selects(f, req, now) then File(Flag(ps, id), id) else File(ps, f.selectedId), None)
  {
    IdIsTrimmed(f, req, now);
    PlacedHas(f, req, now);
  }

  predicate Taken(f: File, req: Save, now: int) {
    Creates(req) && Has(f.profiles, IdOf(f.profiles, req, now))
  }

  lemma {:induction false} ReplaceDistinct(ps: seq<Profile>, k: nat, p: Profile)
    requires Distinct(ps) && k < |ps| && ps[k].id == p.id
    ensures Distinct(ps[k := p])
  {
  }

  lemma {:induction false} AppendDistinct(ps: seq<Profile>, p: Profile)
    requires Distinct(ps)
    ensures Distinct(ps + [p]) <==> !Has(ps, p.id)
  {
    var q := ps + [p];
    if Has(ps, p.id) {
      var i :| 0 <= i < |ps| && ps[i].id == p.id;
      assert q[i].id == q[|ps|].id;
    }
  }

  lemma {:induction false} FlagDistinct(ps: seq<Profile>, id: string)
    ensures Distinct(Flag(ps, id)) <==> Distinct(ps)
  {
    var q := Flag(ps, id);
    assert forall i :: 0 <= i < |ps| ==> q[i].id == ps[i].id;
    if Distinct(q) {
      forall i, j | 0 <= i < j < |ps| ensures ps[i].id != ps[j].id {
        assert q[i].id != q[j].id;
      }
    }
  }

  lemma {:induction false} PlacedDistinct(f: File, req: Save, now: int)
    requires Inv(f) && Check(req).None?
    ensures Distinct(Placed(f, req, now)) <==> !Taken(f, req, now)
  {
    var id, ps := IdOf(f.profiles, req, now), Placed(f, req, now);
    var at := if Creates(req) then None else Find(f.profiles, id);
    if at.Some? {
      ReplaceDistinct(f.profiles, at.value, ps[at.value]);
    } else {
      AppendDistinct(f.profiles, ps[|f.profiles|]);
    }
  }

  /** The profiles that were there keep their place, id and flag, except the saved one. */
  lemma {:induction false} PlacedFlags(f: File, req: Save, now: int)
    requires Inv(f) && Check(req).None?
    ensures var ps := Placed(f, req, now);
      && |f.profiles| <= |ps|
      && (forall i :: 0 <= i < |ps| ==> ps[i].id != "")
      && (forall i :: 0 <= i < |f.profiles| ==> ps[i].id == f.profiles[i].id)
      && (forall i :: 0 <= i < |ps| ==> (ps[i].id == IdOf(f.profiles, req, now) && !ps[i].selected) || (i < |f.profiles| && ps[i] == f.profiles[i]))
  {
    IdIsTrimmed(f, req, now);
  }

  /**
   A successful save keeps the invariant, unless it creates a profile and the id
   generated for it is already taken: then, and only then, ids stop being unique.
   */
  lemma {:induction false} SaveKeepsInv(f: File, req: Save, now: int)
    requires Inv(f) && Upsert(f, req, now).1.None?
    ensures Inv(Upsert(f, req, now).0) <==> !Taken(f, req, now)
  {
    UpsertIs(f, req, now);
    PlacedDistinct(f, req, now);
    PlacedFlags(f, req, now);
    var id, ps := IdOf(f.profiles, req, now), Placed(f, req, now);
    if Selects(f, req, now) {
      PlacedHas(f, req, now);
      FlagDistinct(ps, id);
      if Distinct(ps) {
        FlagKeeps(File(ps, f.selectedId), id);
      }
    } else if Distinct(ps) {
      var k :| 0 <= k < |f.profiles| && f.profiles[k].id == f.selectedId;
      assert ps[k].id == f.selectedId;
    }
  }

  lemma {:induction false} UsedCount(ps: seq<Profile>)
    ensures |Used(ps)| <= |ps|
    ensures forall id :: id in Used(ps) <==> Has(ps, id)
  {
    forall id | Has(ps, id) ensures id in Used(ps) {
      var i :| 0 <= i < |ps| && ps[i].id == id;
      assert Ids(ps)[i] == id;
    }
    SetOfSeq(Ids(ps));
  }

  lemma {:induction false} SetOfSeq(s: seq<string>)
    ensures |set x | x in s| <= |s|
  {
    if s != [] {
      SetOfSeq(s[1..]);
      assert (set x | x in s) == (set x | x in s[1..]) + {s[0]};
    }
  }

  /** With fewer than 9999 profiles no generated id is taken. */
  /** There is a file with any set of ids. */
  lemma {:induction false} FileOf(ids: set<string>) returns (f: File)
    requires "" !in ids
    ensures Inv(f) && f.selectedId == "" && forall x :: x in ids <==> Has(f.profiles, x)
    decreases |ids|
  {
    f := File([], "");
    if ids != {} {
      var x :| x in ids;
      var g := FileOf(ids - {x});
      var p := Profile(x, "", false, SSH("", 0, "", "", ""), Transport("", ""));
      f := File(g.profiles + [p], "");
      assert f.profiles[|g.profiles|].id == x;
      forall y ensures y in ids <==> Has(f.profiles, y) {
        if Has(g.profiles, y) {
          var i :| 0 <= i < |g.profiles| && g.profiles[i].id == y;
          assert f.profiles[i].id == y;
        }
      }
    }
  }

  /** A file that meets the invariant and in which the id of the next profile is taken: saving it breaks the invariant. */
  lemma {:induction false} SaveBreaksInv(req: Save, now: int) returns (f: File)
    requires Check(req).None? && Creates(req)
    ensures Inv(f) && Taken(f, req, now) && Upsert(f, req, now).1.None? && !Inv(Upsert(f, req, now).0)
  {
    var name := Slug(NameOf(req));
    var ids := Candidates(Base(name), LIMIT - 1) + {Numbered(Base(name), now)};
    NotBlankCandidates(Base(name), LIMIT - 1);
    f := FileOf(ids);
    UsedAre(f.profiles, ids);
    TakenId(Used(f.profiles), name, now);
    SaveKeepsInv(f, req, now);
  }

  lemma {:induction false} NotBlankCandidates(base: string, n: nat)
    requires base != ""
    ensures "" !in Candidates(base, n)
  {
    CandidatesAre(base, n, "");
  }

  lemma {:induction false} UsedAre(ps: seq<Profile>, ids: set<string>)
    requires forall x :: x in ids <==> Has(ps, x)
    ensures Used(ps) == ids
  {
    forall x ensures x in Used(ps) <==> Has(ps, x) {
      if Has(ps, x) {
        var i :| 0 <= i < |ps| && ps[i].id == x;
        assert Ids(ps)[i] == x;
      }
      if x in Ids(ps) {
        var i :| 0 <= i < |ps| && Ids(ps)[i] == x;
        assert ps[i].id == x;
      }
    }
  }

  lemma {:induction false} NotTaken(f: File, req: Save, now: int)
    requires |f.profiles| < LIMIT - 1
    ensures !Taken(f, req, now)
  {
    UsedCount(f.profiles);
    FreshId(Used(f.profiles), Slug(NameOf(req)), now);
  }

  /** At no moment does a creating save meet a generated id that is taken. */
  predicate Roomy(f: File, qs: seq<Request>)
    decreases qs
  {
    qs == [] || ((qs[0].op.SaveOp? ==> !Taken(f, qs[0].op.req, qs[0].op.now)) && Roomy(Served(f, qs[0]), qs[1..]))
  }

  /**
   Over every sequence of saves, selections and deletions, refused ones and failed
   file operations included: ids stay unique and non-empty, the selected id is
   empty or names a profile, and exactly that profile carries the flag.
   */
  lemma {:induction false} StoreInvariant(f: File, qs: seq<Request>)
    requires Inv(f) && Roomy(f, qs)
    ensures Inv(ServedAll(f, qs))
    decreases qs
  {
    if qs != [] {
      if Answer(f, qs[0]).None? {
        match qs[0].op {
          case SaveOp(req, now) => SaveKeepsInv(f, req, now);
          case SelectOp(id) => SelectKeepsInv(f, id);
          case DeleteOp(id) => DeleteKeepsInv(f, id);
        }
      }
      StoreInvariant(Served(f, qs[0]), qs[1..]);
    }
  }

  lemma {:induction false} WithoutShorter(ps: seq<Profile>, id: string)
    ensures |Without(ps, id)| <= |ps|
  {
    if ps != [] {
      WithoutShorter(ps[1..], id);
    }
  }

  /** Below the pigeonhole bound there is always room. */
  lemma {:induction false} BoundedIsRoomy(f: File, qs: seq<Request>)
    requires |f.profiles| + |qs| < LIMIT
    ensures Roomy(f, qs)
    decreases qs
  {
    if qs != [] {
      var op := qs[0].op;
      if op.SaveOp? {
        NotTaken(f, op.req, op.now);
        if Answer(f, qs[0]).None? {
          UpsertIs(f, op.req, op.now);
        }
      } else if op.DeleteOp? {
        WithoutShorter(f.profiles, op.id);
      }
      BoundedIsRoomy(Served(f, qs[0]), qs[1..]);
    }
  }

  // ----- what one operation changes -----

  lemma {:induction false} PrefixHas(ps: seq<Profile>, i: nat, n: nat)
    requires i < n <= |ps|
    ensures Has(ps[..n], ps[i].id)
  {
    assert ps[..n][i] == ps[i];
  }

  lemma {:induction false} FindDistinct(ps: seq<Profile>, i: nat)
    requires Distinct(ps) && i < |ps|
    ensures Find(ps, ps[i].id) == Some(i)
  {
    forall n | i < n <= |ps| ensures Has(ps[..n], ps[i].id) {
      PrefixHas(ps, i, n);
    }
    assert ps[..|ps|] == ps;
  }

  /** The entry of an id in a file whose ids are unique, as a flag says it is selected or not. */
  ghost predicate Holds(f: File, p: Profile) {
    Lookup(f, p.id) == Some(p.(selected := p.id == f.selectedId))
  }

  lemma {:induction false} HoldsAt(f: File, p: Profile, i: nat)
    requires Inv(f) && i < |f.profiles| && f.profiles[i] == p.(selected := f.profiles[i].selected)
    ensures Holds(f, p)
  {
    FindDistinct(f.profiles, i);
  }

  /** The stored list is the placed one, up to flags. */
  lemma {:induction false} StoredAt(f: File, req: Save, now: int, k: nat)
    requires Inv(f) && Check(req).None? && !Taken(f, req, now) && k < |Placed(f, req, now)|
    ensures |Upsert(f, req, now).0.profiles| == |Placed(f, req, now)|
    ensures Upsert(f, req, now).0.profiles[k].id == Placed(f, req, now)[k].id
    ensures Holds(Upsert(f, req, now).0, Placed(f, req, now)[k])
  {
    UpsertIs(f, req, now);
    SaveKeepsInv(f, req, now);
    HoldsAt(Upsert(f, req, now).0, Placed(f, req, now)[k], k);
  }

  lemma {:induction false} SaveIds(f: File, req: Save, now: int)
    requires Inv(f) && Check(req).None? && !Taken(f, req, now)
    ensures var id := IdOf(f.profiles, req, now);
      Ids(Upsert(f, req, now).0.profiles) == if Has(f.profiles, id) then Ids(f.profiles) else Ids(f.profiles) + [id]
  {
    UpsertIs(f, req, now);
  }

  ghost predicate AllWhite(s: string) {
    forall c :: c in s ==> White(c)
  }

  /** A save is accepted exactly with a host, a port from 1 to 65535, a user name and a known mode; the first of these that is wrong is the answer. */
  lemma {:induction false} CheckMeans(f: File, req: Save, now: int)
    ensures Upsert(f, req, now).1.None?
       <==> !AllWhite(req.ssh.host) && 1 <= req.ssh.port <= 65535 && !AllWhite(req.ssh.username) && req.transport.Some?
    ensures Upsert(f, req, now).1.Some? ==> Upsert(f, req, now).0 == f
    ensures AllWhite(req.ssh.host) ==> Upsert(f, req, now).1 == Some(HostRequired)
    ensures !AllWhite(req.ssh.host) && !(1 <= req.ssh.port <= 65535) ==> Upsert(f, req, now).1 == Some(BadPort)
    ensures !AllWhite(req.ssh.host) && 1 <= req.ssh.port <= 65535 && AllWhite(req.ssh.username) ==> Upsert(f, req, now).1 == Some(UserRequired)
    ensures !AllWhite(req.ssh.host) && 1 <= req.ssh.port <= 65535 && !AllWhite(req.ssh.username) && req.transport.None?
        ==> Upsert(f, req, now).1 == Some(BadMode)
  {
    TrimsToNothing(req.ssh.host);
    TrimsToNothing(req.ssh.username);
  }

  /** The stored name is the trimmed one, or a fixed one for a blank name. */
  lemma {:induction false} NameMeans(req: Save) returns (x: string, y: string)
    ensures AllWhite(req.name) ==> NameOf(req) == "SSHCustom Profile"
    ensures !AllWhite(req.name)
        ==> req.name == x + NameOf(req) + y && AllWhite(x) && AllWhite(y)
            && NameOf(req) != "" && !White(NameOf(req)[0]) && !White(NameOf(req)[|NameOf(req)| - 1])
  {
    x, y := TrimSpaceMeans(req.name);
    TrimsToNothing(req.name);
  }

  /** The id of a save: the given one without white space around, or for a blank one an id made from the name. */
  lemma {:induction false} IdMeans(ps: seq<Profile>, req: Save, now: int) returns (x: string, y: string)
    ensures AllWhite(req.id) ==> IdOf(ps, req, now) == UniqueId(Used(ps), Slug(NameOf(req)), now)
    ensures !AllWhite(req.id)
        ==> req.id == x + IdOf(ps, req, now) + y && AllWhite(x) && AllWhite(y)
            && IdOf(ps, req, now) != "" && !White(IdOf(ps, req, now)[0]) && !White(IdOf(ps, req, now)[|IdOf(ps, req, now)| - 1])
  {
    x, y := TrimSpaceMeans(req.id);
    TrimsToNothing(req.id);
  }

  /** What is stored of the SSH settings: all as requested, but for the password that is kept and the type that has a default. */
  ghost predicate StoresSsh(req: SSH, was: Option<Profile>, ssh: SSH) {
    && ssh.host == req.host && ssh.port == req.port && ssh.username == req.username
    && (req.password != "" ==> ssh.password == req.password)
    && (req.password == "" && was.Some? ==> ssh.password == was.value.ssh.password)
    && (req.password == "" && was.None? ==> ssh.password == "")
    && ssh.authType == if req.authType != "" then req.authType else "password"
  }

  /** The profile that a save leaves under its id, field by field. */
  lemma {:induction false} SavedProfile(f: File, req: Save, now: int)
    requires Inv(f) && Check(req).None? && !Taken(f, req, now)
    ensures var (g, id) := (Upsert(f, req, now).0, IdOf(f.profiles, req, now)); var stored := Lookup(g, id);
      && stored.Some? && stored.value.id == id && stored.value.name == NameOf(req) && stored.value.transport == req.transport.value
      && StoresSsh(req.ssh, Lookup(f, id), stored.value.ssh)
      && (AllWhite(req.id) ==> Lookup(f, id).None?)
      && (stored.value.selected <==> req.select || f.selectedId == "" || f.selectedId == id)
      && g.selectedId == if req.select || f.selectedId == "" || f.selectedId == id then id else f.selectedId
  {
    var id := IdOf(f.profiles, req, now);
    TrimsToNothing(req.id);
    SaveEffect(f, req, now, Profile(id, "", false, req.ssh, req.transport.value));
    assert Holds(Upsert(f, req, now).0, Profile(id, NameOf(req), false, Merged(req.ssh, Lookup(f, id)), req.transport.value));
  }

  /** A select that finds its id, without white space around, makes it the selected one and changes nothing but flags. */
  lemma {:induction false} SelectEffect(f: File, given: string)
    requires Inv(f)
    ensures var (g, err) := SelectIn(f, given); var id := TrimSpace(given);
      && (err == (if AllWhite(given) then Some(IdRequired) else if Has(f.profiles, id) then None else Some(NotFound)))
      && (err.None? ==> g.selectedId == id)
      && |g.profiles| == |f.profiles|
      && (forall i :: 0 <= i < |f.profiles| ==> g.profiles[i].(selected := false) == f.profiles[i].(selected := false))
  {
    TrimsToNothing(given);
  }

  /** A request is answered with an error and changes nothing, or is answered without one and stores what the operation leaves. */
  lemma {:induction false} ServedMeans(f: File, q: Request)
    ensures Answer(f, q).Some? ==> Served(f, q) == f
    ensures Answer(f, q).None? <==> q.io.Works? && Try(f, q.op).1.None?
    ensures Answer(f, q).None? ==> Served(f, q) == Try(f, q.op).0
    ensures q.io.LoadFails? && q.op != DeleteOp("") ==> Answer(f, q) == Some(IoError)
    ensures q.io != LoadFails && Try(f, q.op).1.Some? ==> Answer(f, q) == Try(f, q.op).1
    ensures q.io.SaveFails? && Try(f, q.op).1.None? ==> Answer(f, q) == Some(IoError)
  {
  }

  /** A deletion is refused exactly without an id or without a profile of that id. */
  lemma {:induction false} RemoveMeans(f: File, id: string)
    ensures Remove(f, id).1 == (if id == "" then Some(IdRequired) else if forall p :: p in f.profiles ==> p.id != id then Some(NotFound) else None)
    ensures Remove(f, id).1.Some? ==> Remove(f, id).0 == f
  {
    HasMember(f.profiles, id);
  }

  /**
   A save stores exactly the requested profile, with the old password where none
   is given, and leaves every other profile as it was but for the flag.
   */
  lemma {:induction false} SaveEffect(f: File, req: Save, now: int, other: Profile)
    requires Inv(f) && Check(req).None? && !Taken(f, req, now)
    ensures var (g, id) := (Upsert(f, req, now).0, IdOf(f.profiles, req, now));
      && g.selectedId == (if Selects(f, req, now) then id else f.selectedId)
      && Holds(g, Profile(id, NameOf(req), false, Merged(req.ssh, Lookup(f, id)), req.transport.value))
      && Ids(g.profiles) == (if Has(f.profiles, id) then Ids(f.profiles) else Ids(f.profiles) + [id])
      && (other in f.profiles && other.id != id ==> Holds(g, other))
  {
    UpsertIs(f, req, now);
    SaveIds(f, req, now);
    var id := IdOf(f.profiles, req, now);
    var at := Find(f.profiles, id);
    StoredAt(f, req, now, if at.Some? then at.value else |f.profiles|);
    if other in f.profiles && other.id != id {
      var i :| 0 <= i < |f.profiles| && f.profiles[i] == other;
      StoredAt(f, req, now, i);
    }
  }

  /** A deletion removes exactly one profile; the others stay as they were. */
  lemma {:induction false} DeleteEffect(f: File, id: string)
    requires Inv(f) && Has(f.profiles, id) && id != ""
    ensures var g := Remove(f, id).0;
      && (forall p :: p in g.profiles <==> p in f.profiles && p.id != id)
      && g.selectedId == (if f.selectedId == id then "" else f.selectedId)
  {
    WithoutIs(f.profiles, id);
  }

  // ----- the file in memory and the handlers -----

  class ProfilesFile {
    var profiles: seq<Profile>
    var selectedId: string

    constructor (f: File)
      ensures Now() == f
    {
      profiles, selectedId := f.profiles, f.selectedId;
    }

    function Now(): File
      reads this
    {
      File(profiles, selectedId)
    }

    method SelectById(given: string) returns (err: Option<Error>)
      modifies this
      ensures (Now(), err) == SelectIn(old(Now()), given)
    {
      var id := TrimSpace(given);
      if id == "" {
        return Some(IdRequired);
      }
      var found := false;
      for i := 0 to |profiles|
        invariant |profiles| == |old(profiles)| && selectedId == old(selectedId)
        invariant forall j :: 0 <= j < i ==> profiles[j] == old(profiles)[j].(selected := old(profiles)[j].id == id)
        invariant forall j :: i <= j < |profiles| ==> profiles[j] == old(profiles)[j]
        invariant found <==> exists j :: 0 <= j < i && old(profiles)[j].id == id
      {
        profiles := profiles[i := profiles[i].(selected := profiles[i].id == id)];
        if profiles[i].selected {
          found := true;
        }
      }
      assert profiles == Flag(old(profiles), id);
      if !found {
        return Some(NotFound);
      }
      selectedId := id;
      err := None;
    }

    method UpsertProfile(req: Save, now: int) returns (err: Option<Error>)
      modifies this
      ensures (Now(), err) == Upsert(old(Now()), req, now)
    {
      var id := TrimSpace(req.id);
      var name := TrimSpace(req.name);
      if name == "" {
        name := "SSHCustom Profile";
      }
      var creatingNew := id == "";
      if id == "" {
        var slug := Slugify(name);
        id := UniqueProfileId(Ids(profiles), slug, now);
      }
      if TrimSpace(req.ssh.host) == "" {
        return Some(HostRequired);
      }
      if req.ssh.port <= 0 || req.ssh.port > 65535 {
        return Some(BadPort);
      }
      if TrimSpace(req.ssh.username) == "" {
        return Some(UserRequired);
      }
      if req.transport.None? {
        return Some(BadMode);
      }
      var idx := Locate(id);
      if creatingNew {
        idx := None;
      }
      var ssh := req.ssh;
      if ssh.password == "" {
        ssh := ssh.(password := if idx.Some? then profiles[idx.value].ssh.password else "");
      }
      if ssh.authType == "" {
        ssh := ssh.(authType := "password");
      }
      var profile := Profile(id, name, false, ssh, req.transport.value);
      if idx.Some? {
        profiles := profiles[idx.value := profile];
      } else {
        profiles := profiles + [profile];
      }
      if req.select || selectedId == "" || selectedId == id {
        var _ := SelectById(id);
      }
      err := None;
    }

    method Locate(id: string) returns (idx: Option<nat>)
      ensures idx == Find(profiles, id)
    {
      for i := 0 to |profiles|
        invariant !Has(profiles[..i], id)
        invariant Find(profiles, id) == FindFrom(profiles, id, i)
      {
        if profiles[i].id == id {
          return Some(i);
        }
        assert profiles[..i + 1] == profiles[..i] + [profiles[i]];
      }
      idx := None;
    }

    method DeleteProfile(id: string) returns (err: Option<Error>)
      modifies this
      ensures (Now(), err) == Remove(old(Now()), id)
    {
      if id == "" {
        return Some(IdRequired);
      }
      var found, filtered := false, [];
      for i := 0 to |profiles|
        invariant Now() == old(Now())
        invariant Without(profiles, id) == filtered + Without(profiles[i..], id)
        invariant found <==> Has(profiles[..i], id)
      {
        WithoutStep(profiles, i, id, filtered);
        if profiles[i].id == id {
          found := true;
          continue;
        }
        filtered := filtered + [profiles[i]];
      }
      assert profiles[..|profiles|] == profiles && filtered == Without(profiles, id);
      if !found {
        return Some(NotFound);
      }
      profiles := filtered;
      if selectedId == id {
        selectedId := "";
      }
      err := None;
    }
  }

  lemma {:induction false} WithoutStep(ps: seq<Profile>, i: nat, id: string, done: seq<Profile>)
    requires i < |ps|
    ensures done + Without(ps[i..], id) == (if ps[i].id == id then done else done + [ps[i]]) + Without(ps[i + 1..], id)
    ensures Has(ps[..i + 1], id) <==> Has(ps[..i], id) || ps[i].id == id
  {
    assert ps[i..][1..] == ps[i + 1..];
    assert ps[..i + 1] == ps[..i] + [ps[i]];
    if Has(ps[..i], id) {
      var j :| 0 <= j < i && ps[..i][j].id == id;
      assert ps[..i + 1][j].id == id;
    }
    assert ps[..i + 1][i] == ps[i];
  }

  /** The stored file and the three request handlers. */
  class Service {
    var stored: File

    constructor (f: File)
      ensures stored == f
    {
      stored := f;
    }

    method Serve(q: Request) returns (err: Option<Error>)
      modifies this
      ensures stored == Served(old(stored), q) && err == Answer(old(stored), q)
    {
      if q.op.DeleteOp? && q.op.id == "" {
        return Some(IdRequired);
      }
      if q.io.LoadFails? {
        return Some(IoError);
      }
      var latest := new ProfilesFile(stored);
      match q.op {
        case SaveOp(req, now) => err := latest.UpsertProfile(req, now);
        case SelectOp(id) => err := latest.SelectById(id);
        case DeleteOp(id) => err := latest.DeleteProfile(id);
      }
      if err.None? {
        if q.io.SaveFails? {
          return Some(IoError);
        }
        stored := latest.Now();
      }
    }
  }
}
