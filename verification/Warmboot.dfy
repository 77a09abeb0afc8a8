/** The warmboot cache of the Mariko branch of LoadWarmbootFirmware in
    archive/2100/fusee_setup_horizon.cpp: saving the current firmware if no file has it, and
    finding a cached one when more fuses are burnt than the current firmware expects. */
module Warmboot {

  type Bytes = seq<nat>

  datatype Entry = Directory | File(content: Bytes)

  type Files = map<string, Entry>

  const DIGITS: string := "0123456789abcdef"
  const PREFIX: string := "sdmc:/warmboot_mariko/wb_"

  /** UpdateWarmbootPath, which takes its argument as a byte: two hexadecimal digits. */
  function Digits(fuses: nat): string
  {
    [DIGITS[fuses / 16 % 16], DIGITS[fuses % 16]]
  }

  function PathOf(fuses: nat): string
  {
    PREFIX + Digits(fuses) + ".bin"
  }

  /** The value of a lower-case hexadecimal digit. */
  function HexValue(c: char): nat
  {
    if '0' <= c <= '9' then c as nat - '0' as nat
    else if 'a' <= c <= 'f' then c as nat - 'a' as nat + 10
    else 16
  }

  lemma DigitIs(d: nat)
    requires d < 16
    ensures HexValue(DIGITS[d]) == d
  {
  }

  /** The name reads the count back, as a byte in hexadecimal, high digit first. */
  lemma NameIs(f: nat)
    ensures var name := PathOf(f);
            && |name| == 31 && name[..0x19] == "sdmc:/warmboot_mariko/wb_" && name[0x1B..] == ".bin"
            && HexValue(name[0x19]) < 16 && HexValue(name[0x1A]) < 16
            && 16 * HexValue(name[0x19]) + HexValue(name[0x1A]) == f % 256
  {
    assert |PREFIX| == 0x19 && |".bin"| == 4;
    NamePlaces(PREFIX, Digits(f), ".bin");
    DigitIs(f / 16 % 16);
    DigitIs(f % 16);
    Nibbles(f);
  }

  lemma NamePlaces(prefix: string, x: string, suffix: string)
    requires |x| == 2
    ensures var name := prefix + x + suffix; var n := |prefix|;
            |name| == n + 2 + |suffix| && name[..n] == prefix && name[n + 2..] == suffix && name[n] == x[0] &&
            name[n + 1] == x[1]
  {
  }

  lemma DigitsDistinct(i: nat, j: nat)
    requires i < 16 && j < 16 && DIGITS[i] == DIGITS[j]
    ensures i == j
  {
  }

  lemma PairDistinct(a: nat, b: nat, c: nat, d: nat)
    requires a < 16 && b < 16 && c < 16 && d < 16 && [DIGITS[a], DIGITS[b]] == [DIGITS[c], DIGITS[d]]
    ensures a == c && b == d
  {
    assert [DIGITS[a], DIGITS[b]][0] == DIGITS[a] && [DIGITS[a], DIGITS[b]][1] == DIGITS[b];
    DigitsDistinct(a, c);
    DigitsDistinct(b, d);
  }

  lemma Between(prefix: string, x: string, y: string, suffix: string)
    requires |x| == |y| && prefix + x + suffix == prefix + y + suffix
    ensures x == y
  {
    assert x == (prefix + x + suffix)[|prefix|..|prefix| + |x|];
    assert y == (prefix + y + suffix)[|prefix|..|prefix| + |y|];
  }

  /** Two counts share a file exactly if they are equal as bytes. */
  lemma PathsDistinct(f: nat, g: nat)
    ensures PathOf(f) == PathOf(g) <==> f % 256 == g % 256
  {
    if PathOf(f) == PathOf(g) {
      Between(PREFIX, Digits(f), Digits(g), ".bin");
      SameDigits(f, g);
    }
    if f % 256 == g % 256 {
      SameByte(f, g);
    }
  }

  lemma Nibbles(f: nat)
    ensures f % 256 == f / 16 % 16 * 16 + f % 16
  {
    var q, r := f / 256, f % 256;
    assert f == 16 * (16 * q + r / 16) + r % 16;
    assert f / 16 == 16 * q + r / 16;
  }

  lemma SameByte(f: nat, g: nat)
    requires f % 256 == g % 256
    ensures f / 16 % 16 == g / 16 % 16 && f % 16 == g % 16
  {
    Nibbles(f);
    Nibbles(g);
  }

  lemma SameDigits(f: nat, g: nat)
    requires Digits(f) == Digits(g)
    ensures f % 256 == g % 256
  {
    PairDistinct(f / 16 % 16, f % 16, g / 16 % 16, g % 16);
    Nibbles(f);
    Nibbles(g);
  }

  predicate ValidSize(n: nat)
  {
    0x800 <= n < 0x1000
  }

  datatype Option<T> = None | Some(value: T)

  /** How WriteFile ends.  One that reports failure may have left anything in the file. */
  datatype Writing = Complete | Failed(left: Bytes)

  /** What the file system does in one boot: whether looking up and opening the current file
      fail although it is there, what CreateFile leaves at a free path, how the write ends, and
      by fuse count which calls of the search fail. */
  datatype Faults = Faults(lookup: bool, create: Option<Bytes>, open: bool, write: Writing,
                           searchOpen: set<nat>, searchSize: set<nat>, searchRead: set<nat>)

  datatype Boot = Boot(expected: nat, burnt: nat, image: Bytes, faults: Faults)

  datatype Outcome =
    | Booted(usedFuses: nat, firmware: Bytes)
    | Fatal

  /** IsFileExist */
  predicate IsFileExist(files: Files, path: string, lookupFails: bool)
  {
    !lookupFails && path in files && files[path].File?
  }

  function Overlay(content: Bytes, data: Bytes): Bytes
  {
    if |data| <= |content| then data + content[|data|..] else data
  }

  /** CreateFile, which fails if the path is taken. */
  function Created(files: Files, path: string, left: Option<Bytes>): Files
  {
    if path in files || left.None? then files else files[path := File(left.value)]
  }

  /** The content of a file after WriteFile. */
  function Put(content: Bytes, b: Boot): Bytes
  {
    if b.faults.write.Complete? then Overlay(content, b.image) else b.faults.write.left
  }

  /** The files after the attempt to save the image, and whether the boot goes on. */
  function Save(files: Files, b: Boot): (Files, bool)
  {
    var path := PathOf(b.expected);
    if IsFileExist(files, path, b.faults.lookup) then (files, true)
    else
      var made := Created(files, path, b.faults.create);
      if path !in made || made[path].Directory? || b.faults.open then (made, false)
      else (made[path := File(Put(made[path].content, b))], b.faults.write.Complete?)
  }

  /** The files after a boot, which ends before it touches them if its image is invalid. */
  function FilesAfter(files: Files, b: Boot): Files
  {
    if ValidSize(|b.image|) then Save(files, b).0 else files
  }

  /** The file for this count opens, has a plausible size and can be read. */
  predicate Usable(files: Files, faults: Faults, attempt: nat)
  {
    && PathOf(attempt) in files && files[PathOf(attempt)].File? && attempt !in faults.searchOpen
    && attempt !in faults.searchSize && ValidSize(|files[PathOf(attempt)].content|)
    && attempt !in faults.searchRead
  }

  /** The four conditions of a usable file: it opens, its size is told, is at least 0x800 and below
      0x1000, and it can be read. */
  lemma UsableIs(files: Files, faults: Faults, attempt: nat)
    ensures Usable(files, faults, attempt) <==>
            && PathOf(attempt) in files && files[PathOf(attempt)].File?
            && attempt !in faults.searchOpen && attempt !in faults.searchSize && attempt !in faults.searchRead
            && 0x800 <= |files[PathOf(attempt)].content| < 0x1000
  {
  }

  /** An image is taken at all if its size is in the same range. */
  lemma ImageIs(files: Files, b: Boot)
    ensures 0x800 <= |b.image| < 0x1000 <==> ValidSize(|b.image|)
    ensures FilesAfter(files, b) == if 0x800 <= |b.image| < 0x1000 then Save(files, b).0 else files
  {
  }

  /** Saving: nothing is done if the file is found.  Otherwise there must be a file, already or
      created now, that opens; after that write the boot goes on exactly if it was complete.
      Then the file begins with the image, and keeps what it had behind that. */
  lemma SaveIs(files: Files, b: Boot)
    ensures var path, after, ok := PathOf(b.expected), Save(files, b).0, Save(files, b).1;
            var there := path in files && files[path].File?;
            var made := path !in files && b.faults.create.Some?;
            && (there && !b.faults.lookup ==> after == files && ok)
            && (!(there && !b.faults.lookup) ==>
                (ok <==> (there || made) && !b.faults.open && b.faults.write.Complete?))
            && (!there && !made ==> after == files)
            && (made && b.faults.open ==> after == files[path := File(b.faults.create.value)])
            && (there && b.faults.open ==> after == files)
            && ((made || (there && b.faults.lookup)) && !b.faults.open ==>
                && path in after && after[path].File? && after == files[path := after[path]]
                && var was := if there then files[path].content else b.faults.create.value;
                   var left := after[path].content;
                   if b.faults.write.Failed? then left == b.faults.write.left
                   else
                     && |left| == (if |was| <= |b.image| then |b.image| else |was|)
                     && forall i :: 0 <= i < |left| ==> left[i] == if i < |b.image| then b.image[i] else was[i])
  {
  }

  /** The boot as its requirements tell it: the least usable count from the burnt one to 32. */
  ghost predicate Chosen(files: Files, b: Boot, o: Outcome)
  {
    if b.burnt <= b.expected then o == Booted(b.expected, b.image)
    else match o
      case Booted(used, firmware) =>
        && b.burnt <= used <= 32 && Usable(files, b.faults, used) && firmware == files[PathOf(used)].content
        && forall a :: b.burnt <= a < used ==> !Usable(files, b.faults, a)
      case Fatal => forall a :: b.burnt <= a <= 32 ==> !Usable(files, b.faults, a)
  }

  class Card {
    var files: Files

    constructor (initial: Files)
      ensures files == initial
    {
      files := initial;
    }

    /** One boot.  `room` is the size of the destination; the copy is cut to it. */
    method LoadWarmbootFirmware(b: Boot, room: nat) returns (o: Outcome, dst: Bytes)
      modifies this
      ensures files == FilesAfter(old(files), b)
      ensures if ValidSize(|b.image|) && Save(old(files), b).1 then Chosen(files, b, o) else o == Fatal
      ensures dst == if o.Booted? then (if |o.firmware| <= room then o.firmware else o.firmware[..room]) else []
    {
      dst := [];
      if !ValidSize(|b.image|) {
        return Fatal, [];
      }
      var usedFuses := b.expected;
      var source := b.image;
      var found := true;
      var path := PathOf(b.expected);
      if !IsFileExist(files, path, b.faults.lookup) {
        files := Created(files, path, b.faults.create);
        if path !in files || files[path].Directory? || b.faults.open {
          return Fatal, [];
        }
        files := files[path := File(Put(files[path].content, b))];
        if b.faults.write.Failed? {
          return Fatal, [];
        }
      }
      if b.burnt > b.expected {
        found, usedFuses, source := Search(b);
      }
      if !found {
        return Fatal, [];
      }
      o := Booted(usedFuses, source);
      dst := source[..if |source| <= room then |source| else room];
    }

    /** The loop over the fuse counts. */
    method Search(b: Boot) returns (found: bool, usedFuses: nat, source: Bytes)
      requires b.burnt > b.expected
      ensures Chosen(files, b, if found then Booted(usedFuses, source) else Fatal)
    {
      hide Usable, PathOf;
      found, usedFuses, source := false, b.expected, [];
      var attempt := b.burnt;
      while attempt <= 32
        invariant b.burnt <= attempt && (attempt <= 33 || attempt == b.burnt)
        invariant forall a :: b.burnt <= a < attempt ==> !Usable(files, b.faults, a)
        decreases if attempt <= 33 then 33 - attempt else 0
      {
        var ok, content := Probe(b.faults, attempt);
        if ok {
          return true, attempt, content;
        }
        attempt := attempt + 1;
      }
    }

    /** The body of the loop: open, get the size, read. */
    method Probe(faults: Faults, attempt: nat) returns (ok: bool, content: Bytes)
      ensures ok <==> Usable(files, faults, attempt)
      ensures ok ==> content == files[PathOf(attempt)].content
    {
      ok, content := false, [];
      var path := PathOf(attempt);
      if path !in files || files[path].Directory? || attempt in faults.searchOpen {
        return;
      }
      var size := |files[path].content|;
      if attempt in faults.searchSize || !(0x800 <= size && size < 0x1000) {
        return;
      }
      if attempt in faults.searchRead {
        return;
      }
      return true, files[path].content;
    }
  }

  // ---------------------------------------------------------------- runs of boots

  /** Every file of before is in after, with the same content. */
  ghost predicate Keeps(before: Files, after: Files)
  {
    forall path :: path in before && before[path].File? ==> path in after && after[path] == before[path]
  }

  /** The boot writes to a file that it found, because looking it up failed. */
  predicate Overwrites(files: Files, b: Boot)
  {
    var path := PathOf(b.expected);
    ValidSize(|b.image|) && path in files && files[path].File? && b.faults.lookup && !b.faults.open
  }

  /** A boot leaves every existing file as it is, unless looking up the current one fails
      although it is there, it is opened, and what the write then leaves, be it complete or
      failed, is not what was there.  Of the other paths none changes in any case. */
  lemma BootKeeps(files: Files, b: Boot)
    ensures var path := PathOf(b.expected);
            Keeps(files, FilesAfter(files, b)) <==>
              !(Overwrites(files, b) && Put(files[path].content, b) != files[path].content)
    ensures forall path :: path != PathOf(b.expected) ==>
              (path in FilesAfter(files, b) <==> path in files) &&
              (path in files ==> FilesAfter(files, b)[path] == files[path])
  {
    var path := PathOf(b.expected);
    if Overwrites(files, b) {
      assert FilesAfter(files, b)[path] == File(Put(files[path].content, b));
    }
  }

  /** A file that a failed write has spoiled, in a boot that ends fatally. */
  lemma FailedWriteSpoils() returns (files: Files, b: Boot)
    ensures !Save(files, b).1 && b.faults.write.Failed? && !Keeps(files, FilesAfter(files, b))
  {
    var image := seq(0x800, i => 1);
    files := map[PathOf(1) := File(image)];
    b := Boot(1, 1, image, Faults(true, None, false, Failed([]), {}, {}, {}));
    assert FilesAfter(files, b)[PathOf(1)] == File([]);
  }

  /** The files after a run of boots. */
  function After(files: Files, boots: seq<Boot>): Files
  {
    if boots == [] then files else FilesAfter(After(files, boots[..|boots| - 1]), boots[|boots| - 1])
  }

  ghost predicate LookupsWork(boots: seq<Boot>, k: nat)
  {
    forall i :: k <= i < |boots| ==> !boots[i].faults.lookup
  }

  /** Over any run of boots whose lookups work, a file once there is never modified. */
  lemma {:induction false} RunKeeps(files: Files, boots: seq<Boot>, k: nat)
    requires k <= |boots| && LookupsWork(boots, k)
    ensures Keeps(After(files, boots[..k]), After(files, boots))
    decreases |boots|
  {
    if k == |boots| {
      assert boots[..k] == boots;
    } else {
      var n := |boots| - 1;
      RunKeeps(files, boots[..n], k);
      assert boots[..n][..k] == boots[..k];
      BootKeeps(After(files, boots[..n]), boots[n]);
    }
  }

  /** The boot creates its file and gets as far as writing all of its image into it. */
  predicate Wrote(b: Boot)
  {
    b.faults.create.Some? && !b.faults.open && b.faults.write.Complete?
  }

  /** What a boot leaves in the file that it creates. */
  function LeftBy(b: Boot): Bytes
    requires b.faults.create.Some?
  {
    if b.faults.open then b.faults.create.value else Put(b.faults.create.value, b)
  }

  /** The file that a boot creates stays as that boot left it for the rest of the run.  Where
      its write was complete, it holds the boot's image exactly if it was created no longer than
      the image; where a call failed, it holds whatever that call left. */
  lemma CreatedHolds(files: Files, boots: seq<Boot>, k: nat)
    requires k < |boots| && LookupsWork(boots, k + 1) && ValidSize(|boots[k].image|)
    requires PathOf(boots[k].expected) !in After(files, boots[..k]) && boots[k].faults.create.Some?
    ensures var path, after := PathOf(boots[k].expected), After(files, boots);
            path in after && after[path] == File(LeftBy(boots[k]))
    ensures Wrote(boots[k]) ==>
              (LeftBy(boots[k]) == boots[k].image <==> |boots[k].faults.create.value| <= |boots[k].image|)
  {
    var b, before := boots[k], After(files, boots[..k]);
    assert boots[..k + 1][..k] == boots[..k];
    assert After(files, boots[..k + 1]) == FilesAfter(before, b);
    RunKeeps(files, boots, k + 1);
    OverlayIs(b.faults.create.value, b.image);
  }

  lemma OverlayIs(content: Bytes, data: Bytes)
    ensures Overlay(content, data) == data <==> |content| <= |data|
  {
    assert |content| == |data| ==> content[|data|..] == [];
  }

  /** What the cache is for.  Once a firmware expecting e fuses has found no file of its own and
      created one, then after any number of further boots, a boot of a firmware that is too old
      for the burnt fuses finds a usable file, at e or below, as long as e covers those fuses and
      what was left in the file has a plausible size. */
  lemma CacheServes(files: Files, boots: seq<Boot>, k: nat, last: Boot, o: Outcome)
    requires k < |boots| && LookupsWork(boots, k + 1) && ValidSize(|boots[k].image|)
    requires PathOf(boots[k].expected) !in After(files, boots[..k]) && boots[k].faults.create.Some?
    requires ValidSize(|LeftBy(boots[k])|)
    requires last.expected < last.burnt <= boots[k].expected <= 32 && ValidSize(|last.image|)
    requires !last.faults.lookup && SearchWorks(last.faults)
    requires Chosen(FilesAfter(After(files, boots), last), last, o)
    ensures o.Booted? && last.burnt <= o.usedFuses <= boots[k].expected
    ensures o.usedFuses == boots[k].expected ==> o.firmware == LeftBy(boots[k])
  {
    CreatedHolds(files, boots, k);
    BootKeeps(After(files, boots), last);
    ServesFrom(FilesAfter(After(files, boots), last), last, boots[k].expected, LeftBy(boots[k]), o);
  }

  predicate SearchWorks(faults: Faults)
  {
    faults.searchOpen == {} && faults.searchSize == {} && faults.searchRead == {}
  }

  lemma ServesFrom(files: Files, b: Boot, e: nat, content: Bytes, o: Outcome)
    requires PathOf(e) in files && files[PathOf(e)] == File(content) && ValidSize(|content|)
    requires b.expected < b.burnt <= e <= 32 && SearchWorks(b.faults) && Chosen(files, b, o)
    ensures o.Booted? && b.burnt <= o.usedFuses <= e
    ensures o.usedFuses == e ==> o.firmware == content
  {
    assert Usable(files, b.faults, e);
  }

  /** The price: what a failed write has left, plausible in size only, is what an older firmware
      boots with from then on, and no later boot of its own firmware replaces it. */
  lemma SpoiledCacheServes(files: Files, boots: seq<Boot>, k: nat, last: Boot, o: Outcome)
    requires k < |boots| && LookupsWork(boots, k + 1) && ValidSize(|boots[k].image|)
    requires PathOf(boots[k].expected) !in After(files, boots[..k]) && boots[k].faults.create.Some?
    requires !boots[k].faults.open && boots[k].faults.write.Failed? && ValidSize(|boots[k].faults.write.left|)
    requires last.expected < last.burnt == boots[k].expected <= 32 && ValidSize(|last.image|)
    requires !last.faults.lookup && SearchWorks(last.faults)
    requires Chosen(FilesAfter(After(files, boots), last), last, o)
    ensures o == Booted(boots[k].expected, boots[k].faults.write.left)
  {
    CacheServes(files, boots, k, last, o);
  }
}
