/** Owner binding: one-time codes, the in-memory bindings and the file behind them
    (runtime/owner_bind.go). */
module OwnerBind {
  import opened Text

  // ----- Codes -----

  type byte = x: int | 0 <= x < 0x100

  const ALPHABET := "23456789ABCDEFGHJKLMNPQRSTUVWXYZ"

  /** The letter of a five-bit group: digits from 2, then capitals without I and O. */
  function Letter(i: nat): char
    requires i < 32
  {
    if i < 8 then '2' + i as char
    else if i < 16 then 'A' + (i - 8) as char
    else if i < 21 then 'J' + (i - 16) as char
    else 'P' + (i - 21) as char
  }

  lemma LettersSpelled()
    ensures seq(32, i requires 0 <= i < 32 => Letter(i)) == ALPHABET
  {
  }

  /** The 40 bits of five bytes, the first byte highest. */
  function Bits(b: seq<byte>): nat {
    if b == [] then 0 else Bits(b[..|b| - 1]) * 0x100 + b[|b| - 1] as int
  }

  /** `n >> s`. */
  function ShiftRight(n: nat, s: nat): nat {
    if s == 0 then n else ShiftRight(n, s - 1) / 2
  }

  /** The last `k` five-bit groups of `n` in the alphabet, high group first. */
  function Groups(n: nat, k: nat): (s: string)
    ensures |s| == k
  {
    if k == 0 then "" else Groups(n / 32, k - 1) + [Letter(n % 32)]
  }

  function WithDash(s: string): string {
    if |s| < 4 then s else s[..4] + "-" + s[4..]
  }

  lemma ShiftByGroup(n: nat, s: nat)
    ensures ShiftRight(n, s + 5) == ShiftRight(n, s) / 32
  {
    assert ShiftRight(n, s + 5) == ShiftRight(n, s + 3) / 2 / 2;
    assert ShiftRight(n, s + 3) == ShiftRight(n, s + 1) / 2 / 2;
  }

  function Power2(k: nat): nat {
    if k == 0 then 1 else 2 * Power2(k - 1)
  }

  lemma {:induction false} BitsSmall(b: seq<byte>)
    ensures Bits(b) < Power2(8 * |b|)
  {
    if b != [] {
      BitsSmall(b[..|b| - 1]);
      Power2Byte(8 * (|b| - 1));
    }
  }

  lemma Power2Byte(k: nat)
    ensures Power2(k + 8) == 0x100 * Power2(k)
  {
    assert Power2(k + 8) == 4 * Power2(k + 6);
    assert Power2(k + 6) == 4 * Power2(k + 4);
    assert Power2(k + 4) == 4 * Power2(k + 2);
  }

  /** The code after `i` characters. */
  function Prefix(n: nat, i: nat): string
    requires i <= 8
  {
    WithDash(Groups(ShiftRight(n, 40 - 5 * i), i))
  }

  /** `encodeBindCode`: 40 bits become eight characters and a dash. */
  method EncodeBindCode(b: seq<byte>) returns (code: string)
    requires |b| == 5
    ensures code == WithDash(Groups(Bits(b), 8))
  {
    var bits := Bits(b);
    code := "";
    assert Prefix(bits, 0) == "" && Prefix(bits, 8) == WithDash(Groups(bits, 8));
    hide Bits, Prefix, WithDash, Groups, ShiftRight, Letter;
    for i := 0 to 8
      invariant code == Prefix(bits, i)
    {
      var idx := ShiftRight(bits, 35 - 5 * i) % 32;
      PrefixNext(bits, i);
      code := code + [Letter(idx)];
      if i == 3 { code := code + "-"; }
    }
  }

  lemma PrefixNext(n: nat, i: nat)
    requires i < 8
    ensures var c := Letter(ShiftRight(n, 35 - 5 * i) % 32);
      Prefix(n, i + 1) == if i == 3 then Prefix(n, i) + [c] + "-" else Prefix(n, i) + [c]
  {
    hide Groups, ShiftRight, Letter, WithDash;
    var g := Groups(ShiftRight(n, 40 - 5 * i), i);
    assert Prefix(n, i) == WithDash(g);
    assert Prefix(n, i + 1) == WithDash(Groups(ShiftRight(n, 35 - 5 * i), i + 1));
    hide Prefix;
    GroupNext(n, 35 - 5 * i, i);
    DashNext(g, Letter(ShiftRight(n, 35 - 5 * i) % 32));
  }

  lemma GroupNext(n: nat, s: nat, i: nat)
    ensures Groups(ShiftRight(n, s), i + 1) == Groups(ShiftRight(n, s + 5), i) + [Letter(ShiftRight(n, s) % 32)]
  {
    ShiftByGroup(n, s);
  }

  lemma DashNext(s: string, c: char)
    ensures WithDash(s + [c]) == if |s| == 3 then WithDash(s) + [c] + "-" else WithDash(s) + [c]
  {
    if |s| >= 4 { assert (s + [c])[..4] == s[..4] && (s + [c])[4..] == s[4..] + [c]; }
    if |s| == 3 { assert (s + [c])[..4] == s + [c] && (s + [c])[4..] == ""; }
  }

  lemma AlphabetDistinct(i: nat, j: nat)
    requires i < 32 && j < 32 && Letter(i) == Letter(j)
    ensures i == j
  {
  }

  lemma {:induction false} GroupsInjective(n: nat, m: nat, k: nat)
    requires Groups(n, k) == Groups(m, k) && n < Power2(5 * k) && m < Power2(5 * k)
    ensures n == m
  {
    if k > 0 {
      var a, b := Groups(n, k), Groups(m, k);
      assert a[..k - 1] == Groups(n / 32, k - 1) && b[..k - 1] == Groups(m / 32, k - 1);
      assert a[k - 1] == Letter(n % 32) && b[k - 1] == Letter(m % 32);
      AlphabetDistinct(n % 32, m % 32);
      Power2Group(5 * (k - 1));
      GroupsInjective(n / 32, m / 32, k - 1);
    }
  }

  lemma Power2Group(k: nat)
    ensures Power2(k + 5) == 32 * Power2(k)
  {
    assert Power2(k + 5) == 4 * Power2(k + 3);
    assert Power2(k + 3) == 4 * Power2(k + 1);
  }

  lemma {:induction false} BitsInjective(a: seq<byte>, b: seq<byte>)
    requires |a| == |b| && Bits(a) == Bits(b)
    ensures a == b
  {
    if a != [] {
      var n := |a| - 1;
      BitsInjective(a[..n], b[..n]);
      assert a == a[..n] + [a[n]] && b == b[..n] + [b[n]];
    }
  }

  /** Different random bytes give different codes. */
  lemma CodesInjective(a: seq<byte>, b: seq<byte>)
    requires |a| == 5 && |b| == 5
    requires WithDash(Groups(Bits(a), 8)) == WithDash(Groups(Bits(b), 8))
    ensures a == b
  {
    var s, t := Groups(Bits(a), 8), Groups(Bits(b), 8);
    var x, y := WithDash(s), WithDash(t);
    assert s == x[..4] + x[5..] && t == y[..4] + y[5..];
    BitsSmall(a);
    BitsSmall(b);
    GroupsInjective(Bits(a), Bits(b), 8);
    BitsInjective(a, b);
  }

  // ----- Bindings -----

  datatype Binding = Binding(entrypoint: string, owner: string, idType: string, boundAt: int)

  type Bindings = map<string, Binding>

  /** `a` may stand before `b` in the file. */
  predicate NotAfter(a: Binding, b: Binding) {
    !Less(b.entrypoint, a.entrypoint)
  }

  predicate InOrder(s: seq<Binding>) {
    forall i, j | 0 <= i < j < |s| :: NotAfter(s[i], s[j])
  }

  lemma NotAfterTransitive(a: Binding, b: Binding, c: Binding)
    requires NotAfter(a, b) && NotAfter(b, c)
    ensures NotAfter(a, c)
  {
    LessTotal(a.entrypoint, b.entrypoint);
    LessTotal(b.entrypoint, c.entrypoint);
    LessTotal(a.entrypoint, c.entrypoint);
    if Less(c.entrypoint, a.entrypoint) {
      if a.entrypoint != b.entrypoint { LessTransitive(c.entrypoint, a.entrypoint, b.entrypoint); }
    }
  }

  lemma NotAfterTotal(a: Binding, b: Binding)
    ensures NotAfter(a, b) || NotAfter(b, a)
  {
    LessTotal(a.entrypoint, b.entrypoint);
  }

  /** In place, by insertion. */
  method SortOwnerBindings(bs: array<Binding>)
    modifies bs
    ensures multiset(bs[..]) == multiset(old(bs[..]))
    ensures InOrder(bs[..])
  {
    hide Less, NotAfter;
    var i := 1;
    while i < bs.Length
      invariant 1 <= i
      invariant multiset(bs[..]) == multiset(old(bs[..]))
      invariant forall p, q | 0 <= p < q < i && q < bs.Length :: NotAfter(bs[p], bs[q])
    {
      SinkIn(bs, i);
      i := i + 1;
    }
  }

  method SinkIn(bs: array<Binding>, i: nat)
    requires 0 < i < bs.Length
    requires forall p, q | 0 <= p < q < i :: NotAfter(bs[p], bs[q])
    modifies bs
    ensures multiset(bs[..]) == multiset(old(bs[..]))
    ensures forall p, q | 0 <= p < q <= i :: NotAfter(bs[p], bs[q])
  {
    hide Less, NotAfter;
    var j := i;
    while j > 0 && !NotAfter(bs[j - 1], bs[j])
      invariant 0 <= j <= i
      invariant multiset(bs[..]) == multiset(old(bs[..]))
      invariant forall p, q | 0 <= p < q <= i && q != j :: NotAfter(bs[p], bs[q])
    {
      NotAfterTotal(bs[j - 1], bs[j]);
      bs[j - 1], bs[j] := bs[j], bs[j - 1];
      j := j - 1;
    }
    SunkInOrder(bs[..], i, j);
  }

  lemma SunkInOrder(s: seq<Binding>, i: nat, j: nat)
    requires j <= i < |s| && (j == 0 || NotAfter(s[j - 1], s[j]))
    requires forall p, q | 0 <= p < q <= i && q != j :: NotAfter(s[p], s[q])
    ensures forall p, q | 0 <= p < q <= i :: NotAfter(s[p], s[q])
  {
    hide NotAfter;
    forall p | 0 <= p < j - 1 ensures NotAfter(s[p], s[j]) {
      NotAfterTransitive(s[p], s[j - 1], s[j]);
    }
  }

  /** What reading the file makes of it. */
  function Loaded(file: seq<Binding>): Bindings {
    if file == [] then map[]
    else Loaded(file[..|file| - 1])[file[|file| - 1].entrypoint := file[|file| - 1]]
  }

  /** The file lists exactly these bindings. */
  predicate Lists(file: seq<Binding>, m: Bindings) {
    && (forall i | 0 <= i < |file| :: file[i].entrypoint in m && m[file[i].entrypoint] == file[i])
    && (forall e | e in m :: Listed(file, e))
  }

  predicate Listed(file: seq<Binding>, e: string) {
    exists i | 0 <= i < |file| :: file[i].entrypoint == e
  }

  lemma {:induction false} LoadedKeys(file: seq<Binding>, e: string)
    ensures e in Loaded(file) <==> Listed(file, e)
    ensures e in Loaded(file) ==> exists i | 0 <= i < |file| :: file[i].entrypoint == e && Loaded(file)[e] == file[i]
  {
    if file != [] {
      var n := |file| - 1;
      LoadedKeys(file[..n], e);
      if e != file[n].entrypoint && Listed(file, e) {
        var i :| 0 <= i < |file| && file[i].entrypoint == e;
        assert file[..n][i].entrypoint == e;
      }
      if e != file[n].entrypoint && e in Loaded(file[..n]) {
        var i :| 0 <= i < n && file[..n][i].entrypoint == e && Loaded(file[..n])[e] == file[..n][i];
        assert file[i] == file[..n][i];
      }
    }
  }

  /** Reading back a listing gives the bindings again. */
  lemma ListingLoads(file: seq<Binding>, m: Bindings)
    requires Lists(file, m)
    ensures Loaded(file) == m
  {
    forall e ensures e in Loaded(file) <==> e in m {
      LoadedKeys(file, e);
    }
    forall e | e in m ensures Loaded(file)[e] == m[e] {
      LoadedKeys(file, e);
    }
  }

  // ----- Binding an owner -----

  datatype Reply = BoundNow | AlreadyOwner | EnrichmentFailed | Taken | NotEnabled | BadCode | SaveFailed

  datatype Attempt = Attempt(entrypoint: string, sender: string, idType: string, code: string, now: int, saved: bool)

  datatype Registry = Registry(bindings: Bindings, persisted: Bindings, codes: map<string, string>)

  datatype Answer = Answer(registry: Registry, reply: Reply)

  function Try(r: Registry, a: Attempt): Answer {
    var e := a.entrypoint;
    if e in r.bindings then
      var b := r.bindings[e];
      if b.owner != a.sender then Answer(r, Taken)
      else if b.idType != "" || a.idType == "" then Answer(r, AlreadyOwner)
      else if !a.saved then Answer(r, EnrichmentFailed)
      else
        var m := r.bindings[e := b.(idType := a.idType)];
        Answer(Registry(m, m, r.codes), AlreadyOwner)
    else if e !in r.codes then Answer(r, NotEnabled)
    else if a.code != r.codes[e] then Answer(r, BadCode)
    else if !a.saved then Answer(r, SaveFailed)
    else
      var m := r.bindings[e := Binding(e, a.sender, a.idType, a.now)];
      Answer(Registry(m, m, r.codes - {e}), BoundNow)
  }

  /** A restart reads the file and draws a code for every entrypoint without an owner. */
  function Rebooted(r: Registry, entrypoints: seq<string>, draw: string -> seq<byte>): Registry {
    Registry(r.persisted, r.persisted, Drawn(entrypoints, r.persisted, draw))
  }

  /** The codes of entrypoints without an owner. */
  function Drawn(entrypoints: seq<string>, m: Bindings, draw: string -> seq<byte>): map<string, string> {
    map e | e in entrypoints && e !in m :: WithDash(Groups(Bits(draw(e)), 8))
  }

  method Load(file: seq<Binding>) returns (m: Bindings)
    ensures m == Loaded(file)
    ensures forall e | e in m :: m[e].entrypoint == e
  {
    m := map[];
    for i := 0 to |file|
      invariant m == Loaded(file[..i])
      invariant forall e | e in m :: m[e].entrypoint == e
    {
      m := m[file[i].entrypoint := file[i]];
      assert file[..i + 1][..i] == file[..i];
    }
    assert file[..|file|] == file;
  }

  method GenerateCodes(entrypoints: seq<string>, m: Bindings, draw: string -> seq<byte>)
    returns (codes: map<string, string>)
    requires forall e :: |draw(e)| == 5
    ensures codes == Drawn(entrypoints, m, draw)
  {
    hide Groups, WithDash, Bits;
    codes := map[];
    for i := 0 to |entrypoints|
      invariant codes == Drawn(entrypoints[..i], m, draw)
    {
      if entrypoints[i] !in m {
        var code := EncodeBindCode(draw(entrypoints[i]));
        codes := codes[entrypoints[i] := code];
      }
      assert entrypoints[..i + 1] == entrypoints[..i] + [entrypoints[i]];
    }
    assert entrypoints[..|entrypoints|] == entrypoints;
  }

  class OwnerBinder {
    var bindings: Bindings
    var file: seq<Binding>
    var bindCodes: map<string, string>

    /** Bindings are filed under their entrypoint. */
    predicate Keyed()
      reads this
    {
      forall e | e in bindings :: bindings[e].entrypoint == e
    }

    /** Between operations memory is what the file says. */
    predicate Valid()
      reads this
    {
      Keyed() && bindings == Loaded(file)
    }

    function View(): Registry
      reads this
    {
      Registry(bindings, Loaded(file), bindCodes)
    }

    /** Startup: `load` and `generateAndAnnounceBindCodes`. */
    constructor (file: seq<Binding>, entrypoints: seq<string>, draw: string -> seq<byte>)
      requires forall e :: |draw(e)| == 5
      ensures Valid()
      ensures this.file == file
      ensures View() == Rebooted(Registry(map[], Loaded(file), map[]), entrypoints, draw)
    {
      var loaded := Load(file);
      var codes := GenerateCodes(entrypoints, loaded, draw);
      this.bindings, this.file, this.bindCodes := loaded, file, codes;
    }

    /** Writes the bindings in order, or fails and leaves the file alone. */
    method Persist(saved: bool) returns (ok: bool)
      requires Keyed()
      modifies this`file
      ensures ok == saved
      ensures if ok then Loaded(file) == bindings && InOrder(file) else file == old(file)
    {
      if !saved { return false; }
      var list := Listing();
      var bs := new Binding[|list|](i requires 0 <= i < |list| => list[i]);
      assert bs[..] == list;
      SortOwnerBindings(bs);
      SameListing(list, bs[..], bindings);
      ListingLoads(bs[..], bindings);
      file := bs[..];
      return true;
    }

    method Listing() returns (list: seq<Binding>)
      requires Keyed()
      ensures Lists(list, bindings)
    {
      list := [];
      var todo := bindings.Keys;
      while todo != {}
        invariant todo <= bindings.Keys
        invariant forall i | 0 <= i < |list| ::
          list[i].entrypoint in bindings && bindings[list[i].entrypoint] == list[i]
        invariant forall e | e in bindings :: e in todo || Listed(list, e)
        decreases todo
      {
        var e :| e in todo;
        todo := todo - {e};
        ghost var before := list;
        list := list + [bindings[e]];
        assert list[|before|].entrypoint == e;
        forall x | Listed(before, x) ensures Listed(list, x) {
          var i :| 0 <= i < |before| && before[i].entrypoint == x;
          assert list[i].entrypoint == x;
        }
      }
    }

    /** `handleOwnerBindWithIdentity`. */
    method HandleOwnerBind(a: Attempt) returns (reply: Reply)
      requires Valid()
      modifies this
      ensures Valid()
      ensures View() == Try(old(View()), a).registry && reply == Try(old(View()), a).reply
    {
      var e := a.entrypoint;
      if e in bindings {
        var existing := bindings[e];
        if existing.owner == a.sender {
          if existing.idType == "" && a.idType != "" {
            bindings := bindings[e := existing.(idType := a.idType)];
            var ok := Persist(a.saved);
            if !ok {
              bindings := bindings[e := existing];
              assert bindings == old(bindings);
              return EnrichmentFailed;
            }
          }
          return AlreadyOwner;
        }
        return Taken;
      }
      if e !in bindCodes { return NotEnabled; }
      if a.code != bindCodes[e] { return BadCode; }
      bindings := bindings[e := Binding(e, a.sender, a.idType, a.now)];
      var ok := Persist(a.saved);
      if !ok {
        bindings := bindings - {e};
        assert bindings == old(bindings);
        return SaveFailed;
      }
      bindCodes := bindCodes - {e};
      return BoundNow;
    }
  }

  lemma SameListing(a: seq<Binding>, b: seq<Binding>, m: Bindings)
    requires multiset(a) == multiset(b) && Lists(a, m)
    ensures Lists(b, m)
  {
    forall i | 0 <= i < |b| ensures b[i].entrypoint in m && m[b[i].entrypoint] == b[i] {
      assert b[i] in multiset(a);
    }
    forall e | e in m ensures Listed(b, e) {
      var i :| 0 <= i < |a| && a[i].entrypoint == e;
      assert a[i] in multiset(b);
    }
  }

  // ----- Over whole runs -----

  datatype Step = Bind(attempt: Attempt) | Reboot(entrypoints: seq<string>, draw: string -> seq<byte>)

  function After(r: Registry, step: Step): Registry {
    match step
    case Bind(a) => Try(r, a).registry
    case Reboot(entrypoints, draw) => Rebooted(r, entrypoints, draw)
  }

  function AfterAll(r: Registry, steps: seq<Step>): Registry
    decreases |steps|
  {
    if steps == [] then r else AfterAll(After(r, steps[0]), steps[1..])
  }

  /** Memory is what is persisted, and a live code means no owner. */
  predicate Sound(r: Registry) {
    r.bindings == r.persisted && (forall e | e in r.codes :: e !in r.bindings)
  }

  /** Owners stay; an identity type is only ever filled in. */
  predicate Keeps(r: Registry, r1: Registry) {
    forall e | e in r.bindings :: e in r1.bindings
      && r1.bindings[e].owner == r.bindings[e].owner && r1.bindings[e].boundAt == r.bindings[e].boundAt
      && (r.bindings[e].idType != "" ==> r1.bindings[e] == r.bindings[e])
  }

  lemma StepSound(r: Registry, step: Step)
    requires Sound(r)
    ensures Sound(After(r, step)) && Keeps(r, After(r, step))
  {
  }

  /** Over any run of bind attempts and restarts, with saves succeeding or failing:
      memory equals the file, an owner never changes, and a bound entrypoint has no live
      code. */
  lemma {:induction false} RunsSound(r: Registry, steps: seq<Step>)
    requires Sound(r)
    ensures Sound(AfterAll(r, steps)) && Keeps(r, AfterAll(r, steps))
    decreases |steps|
  {
    if steps != [] {
      StepSound(r, steps[0]);
      RunsSound(After(r, steps[0]), steps[1..]);
    }
  }

  /** A code works exactly on an entrypoint without an owner, and once it has bound one,
      no attempt on that entrypoint ever binds again, whatever happens in between. */
  lemma UsedCodeIsDead(r: Registry, a: Attempt, steps: seq<Step>, b: Attempt)
    requires Sound(r) && Try(r, a).reply == BoundNow && b.entrypoint == a.entrypoint
    ensures var later := AfterAll(Try(r, a).registry, steps);
      && a.entrypoint in later.bindings && later.bindings[a.entrypoint].owner == a.sender
      && Try(later, b).reply != BoundNow
      && (Try(later, b).reply == Taken <==> b.sender != a.sender)
  {
    StepSound(r, Bind(a));
    RunsSound(Try(r, a).registry, steps);
  }

  /** Failed saves and rejected attempts change nothing. */
  lemma ChangesExactly(r: Registry, a: Attempt)
    requires Sound(r)
    ensures Try(r, a).registry != r ==> a.saved
    ensures a.entrypoint !in r.bindings ==>
      (a.entrypoint in Try(r, a).registry.bindings <==> Try(r, a).reply == BoundNow)
    ensures Try(r, a).reply == BoundNow <==>
      a.entrypoint !in r.bindings && a.saved && a.entrypoint in r.codes && a.code == r.codes[a.entrypoint]
  {
  }

  /** What a successful attempt records, and what every other attempt leaves. */
  lemma BindingRecorded(r: Registry, a: Attempt)
    ensures var after := Try(r, a).registry; var e := a.entrypoint;
      match Try(r, a).reply
      case BoundNow =>
        && after.bindings == r.bindings[e := Binding(e, a.sender, a.idType, a.now)]
        && after.persisted == after.bindings && after.codes == r.codes - {e}
      case AlreadyOwner =>
        && e in r.bindings && after.codes == r.codes
        && var b := r.bindings[e];
          (if b.idType == "" && a.idType != "" then
             && after.bindings == r.bindings[e := Binding(b.entrypoint, a.sender, a.idType, b.boundAt)]
             && after.persisted == after.bindings
           else after == r)
      case _ => after == r
  {
  }

  /** Which reply an attempt gets. */
  lemma RepliesExactly(r: Registry, a: Attempt)
    ensures var e, reply := a.entrypoint, Try(r, a).reply;
      && (reply == Taken <==> e in r.bindings && r.bindings[e].owner != a.sender)
      && (reply in {AlreadyOwner, EnrichmentFailed} <==> e in r.bindings && r.bindings[e].owner == a.sender)
      && (reply == EnrichmentFailed <==>
            && e in r.bindings && r.bindings[e].owner == a.sender
            && r.bindings[e].idType == "" && a.idType != "" && !a.saved)
      && (reply == NotEnabled <==> e !in r.bindings && e !in r.codes)
      && (reply == BadCode <==> e !in r.bindings && e in r.codes && a.code != r.codes[e])
      && (reply == SaveFailed <==> e !in r.bindings && e in r.codes && a.code == r.codes[e] && !a.saved)
  {
  }

  /** The code character by character: eight groups of five bits, high first, a dash after
      the fourth. */
  lemma CodeSpelled(b: seq<byte>)
    requires |b| == 5
    ensures var n := Bits(b); var code := WithDash(Groups(n, 8));
      && n == b[0] as int * 0x1_0000_0000 + b[1] as int * 0x100_0000 + b[2] as int * 0x1_0000
              + b[3] as int * 0x100 + b[4] as int
      && |code| == 9 && code[4] == '-'
      && code[0] == ALPHABET[n / 0x8_0000_0000 % 32] && code[1] == ALPHABET[n / 0x4000_0000 % 32]
      && code[2] == ALPHABET[n / 0x200_0000 % 32] && code[3] == ALPHABET[n / 0x10_0000 % 32]
      && code[5] == ALPHABET[n / 0x8000 % 32] && code[6] == ALPHABET[n / 0x400 % 32]
      && code[7] == ALPHABET[n / 0x20 % 32] && code[8] == ALPHABET[n % 32]
  {
    BitsSpelled(b);
    var n := Bits(b);
    GroupsSpelled(n);
    hide Bits, Groups;
    forall i: nat | i < 32 ensures Letter(i) == ALPHABET[i] { LetterSpelled(i); }
    hide Letter;
  }

  lemma LetterSpelled(i: nat)
    requires i < 32
    ensures Letter(i) == ALPHABET[i]
  {
    LettersSpelled();
    assert seq(32, k requires 0 <= k < 32 => Letter(k))[i] == Letter(i);
  }

  lemma BitsSpelled(b: seq<byte>)
    requires |b| == 5
    ensures Bits(b) ==
      b[0] as int * 0x1_0000_0000 + b[1] as int * 0x100_0000 + b[2] as int * 0x1_0000
      + b[3] as int * 0x100 + b[4] as int
  {
    assert b[..4][..3] == b[..3] && b[..3][..2] == b[..2] && b[..2][..1] == b[..1] && b[..1][..0] == [];
    assert Bits(b[..1]) == b[0] as int;
    assert Bits(b[..2]) == Bits(b[..1]) * 0x100 + b[1] as int;
    assert Bits(b[..3]) == Bits(b[..2]) * 0x100 + b[2] as int;
    assert Bits(b[..4]) == Bits(b[..3]) * 0x100 + b[3] as int;
    hide Bits;
  }

  lemma GroupsSpelled(n: nat)
    ensures var g := Groups(n, 8);
      && g[0] == Letter(n / 0x8_0000_0000 % 32) && g[1] == Letter(n / 0x4000_0000 % 32)
      && g[2] == Letter(n / 0x200_0000 % 32) && g[3] == Letter(n / 0x10_0000 % 32)
      && g[4] == Letter(n / 0x8000 % 32) && g[5] == Letter(n / 0x400 % 32)
      && g[6] == Letter(n / 0x20 % 32) && g[7] == Letter(n % 32)
  {
    hide Letter;
    assert n / 32 / 32 == n / 0x400 && n / 0x400 / 32 == n / 0x8000 && n / 0x8000 / 32 == n / 0x10_0000;
    assert n / 0x10_0000 / 32 == n / 0x200_0000 && n / 0x200_0000 / 32 == n / 0x4000_0000;
    assert n / 0x4000_0000 / 32 == n / 0x8_0000_0000;
    GroupSnoc(n, 7);
    GroupSnoc(n / 0x20, 6);
    GroupSnoc(n / 0x400, 5);
    GroupSnoc(n / 0x8000, 4);
    GroupSnoc(n / 0x10_0000, 3);
    GroupSnoc(n / 0x200_0000, 2);
    GroupSnoc(n / 0x4000_0000, 1);
    GroupSnoc(n / 0x8_0000_0000, 0);
    hide Groups;
  }

  lemma GroupSnoc(n: nat, k: nat)
    ensures Groups(n, k + 1) == Groups(n / 32, k) + [Letter(n % 32)]
  {
  }
}
