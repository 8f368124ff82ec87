/** Functions: metadata in a database, code in a content-addressed object store.

    Every call into the database or the object store may fail, and a write may also be
    applied and then reported as failed. Objects may be corrupted or lost at any time.
    The hash is a parameter; what is asked of it is stated in `GoodHash`.
 */
module FunctionStores {

  type Bytes = seq<bv8>

  datatype Error =
    | InvalidName | InvalidRuntime | EmptyCode | InvalidMemory | TimeoutTooLong | MemoryTooHigh
    | FunctionExists | NotFound | DatabaseFault | StorageFault | HashMismatch

  datatype Result<T> = Ok(value: T) | Err(error: Error)

  /** What happened to a write: applied; not applied; applied, but the reply was lost. */
  datatype Outcome = Done | Refused | Lost

  datatype Function = Function(
    id: string, name: string, runtime: string, memory: int, timeoutSeconds: int, code: Bytes)

  /** A database row: the function with its code replaced by the object key. */
  datatype Row = Row(name: string, runtime: string, memory: int, timeoutSeconds: int, codeKey: string)

  datatype Config = Config(prefix: string, hash: Bytes -> string)

  /** The database, the object store, and for each id the function last written there. */
  datatype World = World(db: map<string, Row>, objects: map<string, Bytes>, saved: map<string, Function>)

  /** Validate, with the error of the first check that fails. */
  function Validate(f: Function): Result<()>
  {
    if f.name == "" then Err(InvalidName)
    else if f.runtime == "" then Err(InvalidRuntime)
    else if |f.code| == 0 then Err(EmptyCode)
    else if f.memory <= 0 then Err(InvalidMemory)
    else if f.timeoutSeconds > 15 * 60 then Err(TimeoutTooLong)
    else if f.memory > 10 * 1024 then Err(MemoryTooHigh)
    else Ok(())
  }

  predicate Valid(f: Function)
  {
    Validate(f).Ok?
  }

  /** What is accepted: something in each text field, 1 to 10240 MB, at most 900 seconds. A refusal
      names a field that is at fault, and what it says of the memory tells too little from too much. */
  lemma ValidIff(f: Function)
    ensures Valid(f) <==>
            && |f.name| > 0 && |f.runtime| > 0 && |f.code| > 0
            && 1 <= f.memory <= 10240 && f.timeoutSeconds <= 900
    ensures Validate(f) == Err(InvalidName) <==> f.name == ""
    ensures Validate(f) == Err(InvalidRuntime) <==> f.runtime == "" && f.name != ""
    ensures Validate(f) == Err(EmptyCode) <==> f.code == [] && f.name != "" && f.runtime != ""
    ensures f.name != "" && f.runtime != "" && f.code != [] ==>
              && (Validate(f) == Err(InvalidMemory) <==> f.memory < 1)
              && (Validate(f) == Err(TimeoutTooLong) <==> f.memory >= 1 && f.timeoutSeconds >= 901)
              && (Validate(f) == Err(MemoryTooHigh) <==> f.memory >= 10241 && f.timeoutSeconds <= 900)
  {
  }

  function RowOf(f: Function, key: string): Row
  {
    Row(f.name, f.runtime, f.memory, f.timeoutSeconds, key)
  }

  // ---------------------------------------------------------------------
  // Object keys
  // ---------------------------------------------------------------------

  /** What the integrity check needs of the hash: hexadecimal text, no collisions. */
  ghost predicate GoodHash(hash: Bytes -> string)
  {
    && (forall b :: |hash(b)| >= 2 && '/' !in hash(b))
    && (forall a, b :: hash(a) == hash(b) ==> a == b)
  }

  function BuildKey(prefix: string, hash: string): string
    requires |hash| >= 2
  {
    if prefix != "" then prefix + "/" + hash[..2] + "/" + hash else hash[..2] + "/" + hash
  }

  /** The part of the key after its last slash, or the whole key. */
  function ExtractHash(key: string): string
  {
    if key == "" || key[|key| - 1] == '/' then ""
    else ExtractHash(key[..|key| - 1]) + [key[|key| - 1]]
  }

  lemma {:induction false} NoSlashIsAll(key: string)
    requires '/' !in key
    ensures ExtractHash(key) == key
    decreases |key|
  {
    if key != "" {
      NoSlashIsAll(key[..|key| - 1]);
      assert key == key[..|key| - 1] + [key[|key| - 1]];
    }
  }

  /** extractHashFromKey: the source's backwards scan finds that part. */
  method ExtractHashFromKey(key: string) returns (r: string)
    ensures r == ExtractHash(key) && '/' !in r
    ensures r == key || exists front :: key == front + "/" + r
  {
    var lastSlash := -1;
    var i := |key| - 1;
    while i >= 0
      invariant -1 <= i < |key|
      invariant lastSlash == -1
      invariant forall j :: i < j < |key| ==> key[j] != '/'
    {
      if key[i] == '/' {
        lastSlash := i;
        break;
      }
      i := i - 1;
    }
    if lastSlash >= 0 {
      r := key[lastSlash + 1..];
      assert key == key[..lastSlash] + "/" + r && '/' !in r;
      AfterSlash(key[..lastSlash], r);
    } else {
      r := key;
      NoSlashIsAll(key);
    }
  }

  lemma {:induction false} AfterSlash(front: string, h: string)
    requires '/' !in h
    ensures ExtractHash(front + "/" + h) == h
    decreases |h|
  {
    var key := front + "/" + h;
    if h != "" {
      AfterSlash(front, h[..|h| - 1]);
      assert key[..|key| - 1] == front + "/" + h[..|h| - 1];
      assert key[|key| - 1] == h[|h| - 1];
    }
  }

  /** Main result: the hash is recovered from the key, for every prefix. */
  lemma KeyRoundTrip(prefix: string, hash: string)
    requires |hash| >= 2 && '/' !in hash
    ensures ExtractHash(BuildKey(prefix, hash)) == hash
  {
    if prefix != "" {
      AfterSlash(prefix + "/" + hash[..2], hash);
    } else {
      AfterSlash(hash[..2], hash);
    }
  }

  /** A key is its prefix, the two-character shard and the hash, with slashes only between them. */
  lemma KeyParts(prefix: string, hash: string)
    requires |hash| >= 2 && '/' !in hash
    ensures
      var key := BuildKey(prefix, hash);
      var front := key[..|key| - |hash| - 1];
      && key == front + "/" + hash && ExtractHash(front) == hash[..2]
      && (prefix == "" ==> front == hash[..2]) && (prefix != "" ==> front[..|front| - 2] == prefix + "/")
  {
    var key := BuildKey(prefix, hash);
    if prefix != "" {
      assert key[..|key| - |hash| - 1] == prefix + "/" + hash[..2];
      AfterSlash(prefix, hash[..2]);
    } else {
      assert key[..|key| - |hash| - 1] == hash[..2];
      NoSlashIsAll(hash[..2]);
    }
  }

  lemma KeysDiffer(prefix: string, a: string, b: string)
    requires |a| >= 2 && |b| >= 2 && '/' !in a && '/' !in b && a != b
    ensures BuildKey(prefix, a) != BuildKey(prefix, b)
  {
    KeyRoundTrip(prefix, a);
    KeyRoundTrip(prefix, b);
  }

  // ---------------------------------------------------------------------
  // Object store operations
  // ---------------------------------------------------------------------

  datatype StoreFaults = StoreFaults(headFails: bool, put: Outcome)

  function Store(cfg: Config, objects: map<string, Bytes>, code: Bytes, fs: StoreFaults)
      : (map<string, Bytes>, Result<string>)
    requires forall b :: |cfg.hash(b)| >= 2
  {
    if code == [] then (objects, Err(StorageFault))
    else
      var key := BuildKey(cfg.prefix, cfg.hash(code));
      if !fs.headFails && key in objects then (objects, Ok(key))
      else
        match fs.put
        case Done => (objects[key := code], Ok(key))
        case Refused => (objects, Err(StorageFault))
        case Lost => (objects[key := code], Err(StorageFault))
  }

  function Retrieve(cfg: Config, objects: map<string, Bytes>, key: string, fails: bool): Result<Bytes>
  {
    if key == "" || fails || key !in objects then Err(StorageFault)
    else if ExtractHash(key) != "" && cfg.hash(objects[key]) != ExtractHash(key) then Err(HashMismatch)
    else Ok(objects[key])
  }

  /** Delete, whose error every caller ignores. */
  function Erase(objects: map<string, Bytes>, key: string, outcome: Outcome): map<string, Bytes>
  {
    if key == "" || outcome == Refused then objects else objects - {key}
  }

  // ---------------------------------------------------------------------
  // The service
  // ---------------------------------------------------------------------

  /** Everything that can go wrong during one service call. */
  datatype Faults = Faults(lookupFails: bool, store: StoreFaults, save: Outcome, erase: Outcome)

  const NO_FAULTS := Faults(false, StoreFaults(false, Done), Done, Done)

  function Save(w: World, f: Function, key: string, outcome: Outcome): World
  {
    if outcome == Refused then w
    else w.(db := w.db[f.id := RowOf(f, key)], saved := w.saved[f.id := f])
  }

  function Created(cfg: Config, w: World, f: Function, fs: Faults): (World, Result<()>)
    requires forall b :: |cfg.hash(b)| >= 2
  {
    if !Valid(f) then (w, Err(Validate(f).error))
    else if fs.lookupFails then (w, Err(DatabaseFault))
    else if exists id :: id in w.db && w.db[id].name == f.name then (w, Err(FunctionExists))
    else
      var (objects, r) := Store(cfg, w.objects, f.code, fs.store);
      if r.Err? then (w.(objects := objects), Err(r.error))
      else
        var w1 := Save(w.(objects := objects), f, r.value, fs.save);
        if fs.save == Done then (w1, Ok(()))
        else (w1.(objects := Erase(objects, r.value, fs.erase)), Err(DatabaseFault))
  }

  function Updated(cfg: Config, w: World, f: Function, fs: Faults): (World, Result<()>)
    requires forall b :: |cfg.hash(b)| >= 2
  {
    if !Valid(f) then (w, Err(Validate(f).error))
    else if fs.lookupFails then (w, Err(DatabaseFault))
    else if f.id !in w.db then (w, Err(NotFound))
    else
      var oldKey := w.db[f.id].codeKey;
      var (objects, r) := Store(cfg, w.objects, f.code, fs.store);
      if r.Err? then (w.(objects := objects), Err(r.error))
      else
        var objects' := if oldKey != r.value then Erase(objects, oldKey, fs.erase) else objects;
        var w1 := Save(w.(objects := objects'), f, r.value, fs.save);
        (w1, if fs.save == Done then Ok(()) else Err(DatabaseFault))
  }

  function Deleted(w: World, id: string, fs: Faults): (World, Result<()>)
  {
    if fs.lookupFails then (w, Err(DatabaseFault))
    else if id !in w.db then (w, Err(NotFound))
    else
      match fs.save
      case Refused => (w, Err(DatabaseFault))
      case Lost => (w.(db := w.db - {id}, saved := w.saved - {id}), Err(DatabaseFault))
      case Done =>
        (World(w.db - {id}, Erase(w.objects, w.db[id].codeKey, fs.erase), w.saved - {id}), Ok(()))
  }

  function Fetched(cfg: Config, w: World, id: string, lookupFails: bool, readFails: bool): Result<Function>
  {
    if lookupFails then Err(DatabaseFault)
    else if id !in w.db then Err(NotFound)
    else
      var row := w.db[id];
      var r := Retrieve(cfg, w.objects, row.codeKey, readFails);
      if r.Err? then Err(r.error)
      else Ok(Function(id, row.name, row.runtime, row.memory, row.timeoutSeconds, r.value))
  }

  // ---------------------------------------------------------------------
  // Runs
  // ---------------------------------------------------------------------

  datatype Event =
    | Create(f: Function, fs: Faults)
    | Update(f: Function, fs: Faults)
    | Delete(id: string, fs: Faults)
    | Corrupt(key: string, bytes: Bytes) // an object changes behind the service's back
    | Vanish(key: string)

  const EMPTY := World(map[], map[], map[])

  function Apply(cfg: Config, w: World, e: Event): World
    requires forall b :: |cfg.hash(b)| >= 2
  {
    match e
    case Create(f, fs) => Created(cfg, w, f, fs).0
    case Update(f, fs) => Updated(cfg, w, f, fs).0
    case Delete(id, fs) => Deleted(w, id, fs).0
    case Corrupt(key, bytes) => w.(objects := w.objects[key := bytes])
    case Vanish(key) => w.(objects := w.objects - {key})
  }

  function After(cfg: Config, w: World, events: seq<Event>): World
    requires forall b :: |cfg.hash(b)| >= 2
    decreases |events|
  {
    if events == [] then w else After(cfg, Apply(cfg, w, events[0]), events[1..])
  }

  /** Each row is the row of the function last written, under the key of its code. */
  ghost predicate Inv(cfg: Config, w: World)
    requires forall b :: |cfg.hash(b)| >= 2
  {
    && w.saved.Keys == w.db.Keys
    && forall id :: id in w.db ==>
         && w.saved[id].id == id
         && w.db[id] == RowOf(w.saved[id], BuildKey(cfg.prefix, cfg.hash(w.saved[id].code)))
  }

  lemma StoreGivesKey(cfg: Config, objects: map<string, Bytes>, code: Bytes, fs: StoreFaults)
    requires forall b :: |cfg.hash(b)| >= 2
    ensures
      var r := Store(cfg, objects, code, fs).1;
      r.Ok? ==> r.value == BuildKey(cfg.prefix, cfg.hash(code))
  {
    hide BuildKey;
  }

  lemma SaveKeepsInv(cfg: Config, w: World, f: Function, outcome: Outcome)
    requires forall b :: |cfg.hash(b)| >= 2
    requires Inv(cfg, w)
    ensures Inv(cfg, Save(w, f, BuildKey(cfg.prefix, cfg.hash(f.code)), outcome))
  {
    hide BuildKey;
  }

  lemma ObjectsDoNotMatter(cfg: Config, w: World, objects: map<string, Bytes>)
    requires forall b :: |cfg.hash(b)| >= 2
    requires Inv(cfg, w)
    ensures Inv(cfg, w.(objects := objects))
  {
    hide BuildKey;
  }

  lemma WriteKeepsInv(cfg: Config, w: World, f: Function, fs: Faults)
    requires forall b :: |cfg.hash(b)| >= 2
    requires Inv(cfg, w)
    ensures Inv(cfg, Created(cfg, w, f, fs).0)
    ensures Inv(cfg, Updated(cfg, w, f, fs).0)
  {
    hide Inv, BuildKey, Store, Save, Erase;
    StoreGivesKey(cfg, w.objects, f.code, fs.store);
    forall w1: World, objects | Inv(cfg, w1)
      ensures Inv(cfg, w1.(objects := objects))
    {
      ObjectsDoNotMatter(cfg, w1, objects);
    }
    forall w1: World | Inv(cfg, w1)
      ensures Inv(cfg, Save(w1, f, BuildKey(cfg.prefix, cfg.hash(f.code)), fs.save))
    {
      SaveKeepsInv(cfg, w1, f, fs.save);
    }
  }

  lemma StepKeepsInv(cfg: Config, w: World, e: Event)
    requires forall b :: |cfg.hash(b)| >= 2
    requires Inv(cfg, w)
    ensures Inv(cfg, Apply(cfg, w, e))
  {
    hide BuildKey, Created, Updated;
    match e
    case Create(f, fs) => WriteKeepsInv(cfg, w, f, fs);
    case Update(f, fs) => WriteKeepsInv(cfg, w, f, fs);
    case Delete(_, _) =>
    case Corrupt(_, _) =>
    case Vanish(_) =>
  }

  lemma {:induction false} RunKeepsInv(cfg: Config, w: World, events: seq<Event>)
    requires forall b :: |cfg.hash(b)| >= 2
    requires Inv(cfg, w)
    ensures Inv(cfg, After(cfg, w, events))
    decreases |events|
  {
    hide Inv, Apply;
    if events != [] {
      StepKeepsInv(cfg, w, events[0]);
      RunKeepsInv(cfg, Apply(cfg, w, events[0]), events[1..]);
    }
  }

  /** What reading a row yields when its object is `bytes`: the saved code, or an error
      because the bytes are not the ones the key was made from. */
  lemma RetrieveIsRight(cfg: Config, objects: map<string, Bytes>, code: Bytes, fails: bool)
    requires GoodHash(cfg.hash)
    ensures
      var key := BuildKey(cfg.prefix, cfg.hash(code));
      match Retrieve(cfg, objects, key, fails)
      case Ok(bytes) => bytes == code
      case Err(_) => fails || key !in objects || objects[key] != code
  {
    KeyRoundTrip(cfg.prefix, cfg.hash(code));
  }

  /** Main result: after any run of creates, updates and deletes, with any faults, shared
      objects and corrupted objects, reading a function gives an error or exactly the
      function last written for that id, code included. */
  lemma RightBytesOrError(cfg: Config, events: seq<Event>, id: string, lookupFails: bool, readFails: bool)
    requires GoodHash(cfg.hash)
    ensures
      var w := After(cfg, EMPTY, events);
      var r := Fetched(cfg, w, id, lookupFails, readFails);
      r.Ok? ==> id in w.saved && r.value == w.saved[id]
  {
    RunKeepsInv(cfg, EMPTY, events);
    var w := After(cfg, EMPTY, events);
    if id in w.db {
      RetrieveIsRight(cfg, w.objects, w.saved[id].code, readFails);
    }
  }

  /** "Last written" means what a caller would think: unless the reply of a database write
      is lost, the record changes exactly when the call reports success. */
  lemma SavedIffReported(cfg: Config, w: World, f: Function, id: string, fs: Faults)
    requires forall b :: |cfg.hash(b)| >= 2
    requires fs.save != Lost
    ensures
      var (c, cr) := Created(cfg, w, f, fs);
      c.saved == if cr.Ok? then w.saved[f.id := f] else w.saved
    ensures
      var (u, ur) := Updated(cfg, w, f, fs);
      u.saved == if ur.Ok? then w.saved[f.id := f] else w.saved
    ensures
      var (d, dr) := Deleted(w, id, fs);
      d.saved == if dr.Ok? then w.saved - {id} else w.saved
  {
    hide BuildKey;
  }

  // ---------------------------------------------------------------------
  // When reading succeeds
  // ---------------------------------------------------------------------

  ghost predicate Readable(cfg: Config, w: World, id: string)
  {
    Fetched(cfg, w, id, false, false).Ok?
  }

  lemma ReadableIff(cfg: Config, w: World, id: string)
    requires GoodHash(cfg.hash) && Inv(cfg, w)
    ensures Readable(cfg, w, id) <==>
            && id in w.db
            && w.db[id].codeKey in w.objects
            && w.objects[w.db[id].codeKey] == w.saved[id].code
  {
    if id in w.db {
      RetrieveIsRight(cfg, w.objects, w.saved[id].code, false);
      assert w.db[id].codeKey != "";
    }
  }

  /** The object key of a code. */
  function KeyOf(cfg: Config, code: Bytes): string
    requires forall b :: |cfg.hash(b)| >= 2
  {
    BuildKey(cfg.prefix, cfg.hash(code))
  }

  lemma KeyOfIsInjective(cfg: Config, a: Bytes, b: Bytes)
    requires GoodHash(cfg.hash)
    ensures KeyOf(cfg, a) == KeyOf(cfg, b) <==> a == b
    ensures KeyOf(cfg, a) != ""
  {
    if a != b {
      KeysDiffer(cfg.prefix, cfg.hash(a), cfg.hash(b));
    }
  }

  /** Storing the code succeeds: its object is found, or it is written. */
  predicate Stored(cfg: Config, w: World, code: Bytes, fs: StoreFaults)
    requires forall b :: |cfg.hash(b)| >= 2
  {
    code != [] && ((!fs.headFails && KeyOf(cfg, code) in w.objects) || fs.put == Done)
  }

  predicate NameTaken(w: World, name: string) { exists id :: id in w.db && w.db[id].name == name }

  /** The event takes away or changes the object of this code. A create rolls back after a row
      write that failed, even if it only reused the object; an update erases the code it replaces,
      and a delete the code it deletes, whoever else uses them. */
  predicate Harms(cfg: Config, w: World, e: Event, code: Bytes)
    requires forall b :: |cfg.hash(b)| >= 2
    requires w.saved.Keys == w.db.Keys
  {
    match e
    case Create(f, fs) =>
      && f.code == code
      && Valid(f) && !fs.lookupFails && !NameTaken(w, f.name) && Stored(cfg, w, f.code, fs.store)
      && fs.save != Done && fs.erase != Refused
    case Update(f, fs) =>
      && f.id in w.db && w.saved[f.id].code == code && f.code != code
      && Valid(f) && !fs.lookupFails && Stored(cfg, w, f.code, fs.store) && fs.erase != Refused
    case Delete(id, fs) =>
      && id in w.db && w.saved[id].code == code
      && !fs.lookupFails && fs.save == Done && fs.erase != Refused
    case Corrupt(key, bytes) => key == KeyOf(cfg, code) && bytes != code
    case Vanish(key) => key == KeyOf(cfg, code)
  }

  predicate IsAbout(e: Event, id: string)
  {
    match e
    case Create(f, _) => f.id == id
    case Update(f, _) => f.id == id
    case Delete(i, _) => i == id
    case Corrupt(_, _) => false
    case Vanish(_) => false
  }

  /** What storing a code does to the object of another or the same code. */
  lemma StoreAndObject(cfg: Config, w: World, code: Bytes, fs: StoreFaults, other: Bytes)
    requires GoodHash(cfg.hash) && KeyOf(cfg, other) in w.objects && w.objects[KeyOf(cfg, other)] == other
    ensures var (objects, r) := Store(cfg, w.objects, code, fs);
            && (r.Ok? <==> Stored(cfg, w, code, fs))
            && (r.Ok? ==> r.value == KeyOf(cfg, code))
            && KeyOf(cfg, other) in objects && objects[KeyOf(cfg, other)] == other
  {
    KeyOfIsInjective(cfg, code, other);
    hide BuildKey;
  }

  lemma EraseAndObject(cfg: Config, objects: map<string, Bytes>, code: Bytes, other: Bytes, outcome: Outcome)
    requires GoodHash(cfg.hash)
    ensures var erased := Erase(objects, KeyOf(cfg, code), outcome);
            && (KeyOf(cfg, other) in erased <==> KeyOf(cfg, other) in objects && (code != other || outcome == Refused))
            && (KeyOf(cfg, other) in erased ==> erased[KeyOf(cfg, other)] == objects[KeyOf(cfg, other)])
  {
    KeyOfIsInjective(cfg, code, other);
    hide BuildKey;
  }

  predicate HasObject(cfg: Config, w: World, code: Bytes)
    requires forall b :: |cfg.hash(b)| >= 2
  {
    KeyOf(cfg, code) in w.objects && w.objects[KeyOf(cfg, code)] == code
  }

  lemma CreateAndObject(cfg: Config, w: World, f: Function, fs: Faults, code: Bytes)
    requires GoodHash(cfg.hash) && Inv(cfg, w) && HasObject(cfg, w, code)
    ensures HasObject(cfg, Created(cfg, w, f, fs).0, code) <==> !Harms(cfg, w, Create(f, fs), code)
  {
    StoreAndObject(cfg, w, f.code, fs.store, code);
    EraseAndObject(cfg, Store(cfg, w.objects, f.code, fs.store).0, f.code, code, fs.erase);
    hide KeyOf, Store, Erase, Stored, Valid, BuildKey;
  }

  lemma UpdateAndObject(cfg: Config, w: World, f: Function, fs: Faults, code: Bytes)
    requires GoodHash(cfg.hash) && Inv(cfg, w) && HasObject(cfg, w, code)
    ensures HasObject(cfg, Updated(cfg, w, f, fs).0, code) <==> !Harms(cfg, w, Update(f, fs), code)
  {
    StoreAndObject(cfg, w, f.code, fs.store, code);
    if f.id in w.db {
      var was := w.saved[f.id].code;
      assert w.db[f.id].codeKey == KeyOf(cfg, was);
      KeyOfIsInjective(cfg, was, f.code);
      EraseAndObject(cfg, Store(cfg, w.objects, f.code, fs.store).0, was, code, fs.erase);
    }
    hide KeyOf, Store, Erase, Stored, Valid, BuildKey;
  }

  lemma EventAndObject(cfg: Config, w: World, e: Event, code: Bytes)
    requires GoodHash(cfg.hash) && Inv(cfg, w) && HasObject(cfg, w, code)
    ensures HasObject(cfg, Apply(cfg, w, e), code) <==> !Harms(cfg, w, e, code)
  {
    match e
    case Create(f, fs) => CreateAndObject(cfg, w, f, fs, code);
    case Update(f, fs) => UpdateAndObject(cfg, w, f, fs, code);
    case Delete(id, fs) =>
      if id in w.db {
        assert w.db[id].codeKey == KeyOf(cfg, w.saved[id].code);
        EraseAndObject(cfg, w.objects, w.saved[id].code, code, fs.erase);
      }
      hide KeyOf, Erase, BuildKey;
    case Corrupt(_, _) => hide KeyOf;
    case Vanish(_) => hide KeyOf;
  }

  lemma OthersKeepTheirRow(cfg: Config, w: World, e: Event, a: string)
    requires forall b :: |cfg.hash(b)| >= 2
    requires Inv(cfg, w) && a in w.db && !IsAbout(e, a)
    ensures var w' := Apply(cfg, w, e);
            a in w'.db && a in w'.saved && w'.db[a] == w.db[a] && w'.saved[a] == w.saved[a]
  {
    hide Store, Erase, BuildKey, Valid;
    match e
    case Create(_, _) =>
    case Update(_, _) =>
    case Delete(_, _) =>
    case Corrupt(_, _) =>
    case Vanish(_) =>
  }

  /** Main result: a readable function that the event is not about stays readable if and only if
      the event does not take away or change the object of its code, for every call, every fault
      and every corruption. */
  lemma OthersStayReadableIff(cfg: Config, w: World, e: Event, a: string)
    requires GoodHash(cfg.hash) && Inv(cfg, w) && Readable(cfg, w, a) && !IsAbout(e, a)
    ensures a in w.saved && (Readable(cfg, Apply(cfg, w, e), a) <==> !Harms(cfg, w, e, w.saved[a].code))
  {
    ReadableIff(cfg, w, a);
    var code := w.saved[a].code;
    assert w.db[a].codeKey == KeyOf(cfg, code);
    EventAndObject(cfg, w, e, code);
    OthersKeepTheirRow(cfg, w, e, a);
    StepKeepsInv(cfg, w, e);
    ReadableIff(cfg, Apply(cfg, w, e), a);
    hide Apply, Harms, Inv, Readable, KeyOf;
  }

  /** The update gets as far as erasing the old object. */
  predicate Replaces(cfg: Config, w: World, f: Function, fs: Faults)
    requires forall b :: |cfg.hash(b)| >= 2
  {
    Valid(f) && !fs.lookupFails && f.id in w.db && Stored(cfg, w, f.code, fs.store)
  }

  /** The object found for the new code is not that code. */
  predicate FindsWrongObject(cfg: Config, w: World, code: Bytes, fs: StoreFaults)
    requires forall b :: |cfg.hash(b)| >= 2
  {
    !fs.headFails && KeyOf(cfg, code) in w.objects && w.objects[KeyOf(cfg, code)] != code
  }

  lemma StoredObject(cfg: Config, w: World, code: Bytes, fs: StoreFaults)
    requires GoodHash(cfg.hash) && Stored(cfg, w, code, fs)
    ensures var objects := Store(cfg, w.objects, code, fs).0;
            KeyOf(cfg, code) in objects && (objects[KeyOf(cfg, code)] == code <==> !FindsWrongObject(cfg, w, code, fs))
  {
    hide BuildKey;
  }

  lemma ReplacedRow(cfg: Config, w: World, f: Function, fs: Faults)
    requires GoodHash(cfg.hash) && Inv(cfg, w) && Replaces(cfg, w, f, fs)
    ensures var w', key := Updated(cfg, w, f, fs).0, KeyOf(cfg, f.code);
            && (fs.save == Refused ==> w'.db == w.db && w'.saved == w.saved)
            && (fs.save != Refused ==>
                  && w'.db == w.db[f.id := RowOf(f, key)] && w'.saved == w.saved[f.id := f]
                  && key in w'.objects && (w'.objects[key] == f.code <==> !FindsWrongObject(cfg, w, f.code, fs.store)))
  {
    StoreGivesKey(cfg, w.objects, f.code, fs.store);
    StoredObject(cfg, w, f.code, fs.store);
    assert Store(cfg, w.objects, f.code, fs.store).1.Ok?;
    hide Store, BuildKey, Valid, FindsWrongObject;
  }

  lemma UnreachedUpdate(cfg: Config, w: World, f: Function, fs: Faults)
    requires GoodHash(cfg.hash) && Inv(cfg, w) && f.id in w.db && !Replaces(cfg, w, f, fs)
    ensures var w' := Updated(cfg, w, f, fs).0; w'.db == w.db && w'.saved == w.saved
  {
    assert Valid(f) && !fs.lookupFails ==> Store(cfg, w.objects, f.code, fs.store).1.Err?;
    hide Store, BuildKey;
  }

  /** Main result: a function whose own update does not go through keeps its code, unless the row
      write was refused after the old object was erased; one whose row was written is readable
      unless a wrong object was found under the key of the new code. For every fault. */
  lemma OwnUpdateReadableIff(cfg: Config, w: World, f: Function, fs: Faults)
    requires GoodHash(cfg.hash) && Inv(cfg, w) && Readable(cfg, w, f.id)
    ensures f.id in w.saved
    ensures Readable(cfg, Updated(cfg, w, f, fs).0, f.id) <==>
              if !Replaces(cfg, w, f, fs) then true
              else if fs.save == Refused then w.saved[f.id].code == f.code || fs.erase == Refused
              else !FindsWrongObject(cfg, w, f.code, fs.store)
  {
    ReadableIff(cfg, w, f.id);
    var w', was := Updated(cfg, w, f, fs).0, w.saved[f.id].code;
    assert w.db[f.id].codeKey == KeyOf(cfg, was);
    UpdateAndObject(cfg, w, f, fs, was);
    StepKeepsInv(cfg, w, Update(f, fs));
    ReadableIff(cfg, w', f.id);
    if Replaces(cfg, w, f, fs) {
      ReplacedRow(cfg, w, f, fs);
    } else {
      UnreachedUpdate(cfg, w, f, fs);
    }
    hide Updated, Inv, Readable, KeyOf, FindsWrongObject, Stored, Valid;
  }

  /** A create that goes through. */
  lemma CreatedIsReadable(cfg: Config, w: World, f: Function)
    requires GoodHash(cfg.hash) && Inv(cfg, w) && Valid(f) && !NameTaken(w, f.name)
    requires KeyOf(cfg, f.code) !in w.objects || w.objects[KeyOf(cfg, f.code)] == f.code
    ensures var w' := Apply(cfg, w, Create(f, NO_FAULTS));
            && w'.db == w.db[f.id := RowOf(f, KeyOf(cfg, f.code))] && w'.saved == w.saved[f.id := f]
            && HasObject(cfg, w', f.code)
  {
    hide BuildKey;
  }

  /** Two functions of the same code share its object, and each of three calls that are about the
      other one takes it away: its deletion, its update to other code, and a failed creation of a
      third function of that code. */
  lemma SharedCodeIsLost(cfg: Config, f: Function, g: Function, g': Function, h: Function)
    requires GoodHash(cfg.hash) && Valid(f) && Valid(g) && Valid(g') && Valid(h)
    requires f.code == g.code == h.code && g'.code != g.code && g'.id == g.id && f.id != g.id && f.id != h.id
    requires f.name != g.name && h.name != f.name && h.name != g.name
    ensures var w := After(cfg, EMPTY, [Create(f, NO_FAULTS), Create(g, NO_FAULTS)]);
            && Readable(cfg, w, f.id)
            && !Readable(cfg, Apply(cfg, w, Delete(g.id, NO_FAULTS)), f.id)
            && !Readable(cfg, Apply(cfg, w, Update(g', NO_FAULTS)), f.id)
            && !Readable(cfg, Apply(cfg, w, Create(h, NO_FAULTS.(save := Refused))), f.id)
  {
    var w1 := Apply(cfg, EMPTY, Create(f, NO_FAULTS));
    var w := Apply(cfg, w1, Create(g, NO_FAULTS));
    TwoEvents(cfg, EMPTY, Create(f, NO_FAULTS), Create(g, NO_FAULTS));
    StepKeepsInv(cfg, EMPTY, Create(f, NO_FAULTS));
    CreatedIsReadable(cfg, EMPTY, f);
    hide Apply, After;
    assert !NameTaken(w1, g.name);
    StepKeepsInv(cfg, w1, Create(g, NO_FAULTS));
    CreatedIsReadable(cfg, w1, g);
    assert w.saved == map[f.id := f, g.id := g] && !NameTaken(w, h.name);
    hide Valid, Readable, Inv, KeyOf;
    SharingIsLosing(cfg, w, f, g, g', h);
  }

  lemma TwoEvents(cfg: Config, w: World, a: Event, b: Event)
    requires forall b :: |cfg.hash(b)| >= 2
    ensures After(cfg, w, [a, b]) == Apply(cfg, Apply(cfg, w, a), b)
  {
    hide Apply;
    assert [a, b][1..] == [b];
    assert After(cfg, Apply(cfg, w, a), [b]) == After(cfg, Apply(cfg, Apply(cfg, w, a), b), [b][1..]);
  }

  lemma SharingIsLosing(cfg: Config, w: World, f: Function, g: Function, g': Function, h: Function)
    requires GoodHash(cfg.hash) && Inv(cfg, w) && f.id in w.db && g.id in w.db && HasObject(cfg, w, f.code)
    requires w.saved[f.id] == f && w.saved[g.id] == g && Valid(g') && Valid(h) && !NameTaken(w, h.name)
    requires f.code == g.code == h.code && g'.code != g.code && g'.id == g.id && f.id != g.id && f.id != h.id
    ensures Readable(cfg, w, f.id)
    ensures !Readable(cfg, Apply(cfg, w, Delete(g.id, NO_FAULTS)), f.id)
    ensures !Readable(cfg, Apply(cfg, w, Update(g', NO_FAULTS)), f.id)
    ensures !Readable(cfg, Apply(cfg, w, Create(h, NO_FAULTS.(save := Refused))), f.id)
  {
    ReadableIff(cfg, w, f.id);
    hide Apply, Readable, KeyOf, Inv;
    OthersStayReadableIff(cfg, w, Delete(g.id, NO_FAULTS), f.id);
    OthersStayReadableIff(cfg, w, Update(g', NO_FAULTS), f.id);
    OthersStayReadableIff(cfg, w, Create(h, NO_FAULTS.(save := Refused)), f.id);
  }

  // ---------------------------------------------------------------------
  // What each call answers and what it leaves behind
  // ---------------------------------------------------------------------

  /** A call that was refused before it wrote anything. */
  predicate IsValidationError(e: Error)
  {
    e in {InvalidName, InvalidRuntime, EmptyCode, InvalidMemory, TimeoutTooLong, MemoryTooHigh}
  }

  /** Main result: for every world and every fault, when CreateFunction succeeds and which error it
      gives otherwise. A taken name is refused whatever else would have happened. */
  lemma CreateReports(cfg: Config, w: World, f: Function, fs: Faults)
    requires forall b :: |cfg.hash(b)| >= 2
    ensures
      var r := Created(cfg, w, f, fs).1;
      var taken := exists id :: id in w.db && w.db[id].name == f.name;
      var stored := (!fs.store.headFails && KeyOf(cfg, f.code) in w.objects) || fs.store.put == Done;
      && (r.Ok? <==> Valid(f) && !fs.lookupFails && !taken && stored && fs.save == Done)
      && (r == Err(FunctionExists) <==> Valid(f) && !fs.lookupFails && taken)
      && (r == Err(StorageFault) <==> Valid(f) && !fs.lookupFails && !taken && !stored)
      && (r == Err(DatabaseFault) <==> Valid(f) && (fs.lookupFails || (!taken && stored && fs.save != Done)))
      && (r.Err? && IsValidationError(r.error) <==> !Valid(f))
  {
    hide BuildKey;
  }

  /** Main result: and what it leaves behind. Refused before the object write it changes nothing;
      after it, the row is written unless that write was refused, and the object stays unless the
      row write failed and its rollback worked. */
  lemma CreateLeaves(cfg: Config, w: World, f: Function, fs: Faults)
    requires forall b :: |cfg.hash(b)| >= 2
    ensures
      var w' := Created(cfg, w, f, fs).0;
      var key := KeyOf(cfg, f.code);
      var found := !fs.store.headFails && key in w.objects;
      var with := if found then w.objects else w.objects[key := f.code];
      && (!Valid(f) || fs.lookupFails || (exists id :: id in w.db && w.db[id].name == f.name) ==> w' == w)
      && (Valid(f) && !fs.lookupFails && (forall id :: id in w.db ==> w.db[id].name != f.name) ==>
            if !found && fs.store.put != Done then
              w' == w.(objects := if fs.store.put == Refused then w.objects else with)
            else
              && w'.db == (if fs.save == Refused then w.db else w.db[f.id := RowOf(f, key)])
              && w'.saved == (if fs.save == Refused then w.saved else w.saved[f.id := f])
              && w'.objects == (if fs.save == Done || fs.erase == Refused then with else with - {key}))
  {
    hide BuildKey;
    KeyIsNotEmpty(cfg, f.code);
  }

  lemma KeyIsNotEmpty(cfg: Config, code: Bytes)
    requires forall b :: |cfg.hash(b)| >= 2
    ensures KeyOf(cfg, code) != ""
  {
    assert KeyOf(cfg, code)[|KeyOf(cfg, code)| - 1] == cfg.hash(code)[|cfg.hash(code)| - 1];
  }

  lemma UpdateReports(cfg: Config, w: World, f: Function, fs: Faults)
    requires forall b :: |cfg.hash(b)| >= 2
    ensures
      var r := Updated(cfg, w, f, fs).1;
      var stored := (!fs.store.headFails && KeyOf(cfg, f.code) in w.objects) || fs.store.put == Done;
      && (r.Ok? <==> Valid(f) && !fs.lookupFails && f.id in w.db && stored && fs.save == Done)
      && (r == Err(NotFound) <==> Valid(f) && !fs.lookupFails && f.id !in w.db)
      && (r == Err(StorageFault) <==> Valid(f) && !fs.lookupFails && f.id in w.db && !stored)
      && (r == Err(DatabaseFault) <==> Valid(f) && (fs.lookupFails || (f.id in w.db && stored && fs.save != Done)))
      && (r.Err? && IsValidationError(r.error) <==> !Valid(f))
  {
    hide BuildKey;
  }

  /** An update erases the code it replaces before it writes the row, and only if the code changed. */
  lemma UpdateLeaves(cfg: Config, w: World, f: Function, fs: Faults)
    requires forall b :: |cfg.hash(b)| >= 2
    requires Inv(cfg, w)
    ensures
      var w' := Updated(cfg, w, f, fs).0;
      var key := KeyOf(cfg, f.code);
      var found := !fs.store.headFails && key in w.objects;
      var with := if found then w.objects else w.objects[key := f.code];
      && (!Valid(f) || fs.lookupFails || f.id !in w.db ==> w' == w)
      && (Valid(f) && !fs.lookupFails && f.id in w.db ==>
            var was := KeyOf(cfg, w.saved[f.id].code);
            if !found && fs.store.put != Done then
              w' == w.(objects := if fs.store.put == Refused then w.objects else with)
            else
              && w'.db == (if fs.save == Refused then w.db else w.db[f.id := RowOf(f, key)])
              && w'.saved == (if fs.save == Refused then w.saved else w.saved[f.id := f])
              && w'.objects == (if was == key || fs.erase == Refused then with else with - {was}))
  {
    hide BuildKey;
    if f.id in w.db {
      KeyIsNotEmpty(cfg, w.saved[f.id].code);
    }
  }

  /** Main result: DeleteFunction for every world and fault: the row goes unless its removal was
      refused, and the object only after a removal that was reported. */
  lemma DeleteReports(cfg: Config, w: World, id: string, fs: Faults)
    requires forall b :: |cfg.hash(b)| >= 2
    requires Inv(cfg, w)
    ensures
      var (w', r) := Deleted(w, id, fs);
      && (r.Ok? <==> !fs.lookupFails && id in w.db && fs.save == Done)
      && (r == Err(NotFound) <==> !fs.lookupFails && id !in w.db)
      && (r == Err(DatabaseFault) <==> fs.lookupFails || (id in w.db && fs.save != Done))
      && (r == Err(NotFound) || fs.lookupFails || fs.save == Refused ==> w' == w)
      && (!fs.lookupFails && id in w.db && fs.save != Refused ==>
            w'.db == w.db - {id} && w'.saved == w.saved - {id})
      && (!fs.lookupFails && id in w.db ==>
            w'.objects == if fs.save == Done && fs.erase != Refused
                          then w.objects - {KeyOf(cfg, w.saved[id].code)} else w.objects)
  {
    hide BuildKey;
    if id in w.db {
      KeyIsNotEmpty(cfg, w.saved[id].code);
    }
  }

  /** Main result: GetFunction in every world that a run can reach: the function last written, or
      the error that tells why not. A corrupted object is a hash mismatch, never wrong bytes. */
  lemma GetReports(cfg: Config, w: World, id: string, lookupFails: bool, readFails: bool)
    requires GoodHash(cfg.hash) && Inv(cfg, w)
    ensures
      var r := Fetched(cfg, w, id, lookupFails, readFails);
      && (r == Err(DatabaseFault) <==> lookupFails)
      && (r == Err(NotFound) <==> !lookupFails && id !in w.saved)
      && (!lookupFails && id in w.saved ==>
            var key := KeyOf(cfg, w.saved[id].code);
            && (r == Err(StorageFault) <==> readFails || key !in w.objects)
            && (r == Err(HashMismatch) <==> !readFails && key in w.objects && w.objects[key] != w.saved[id].code)
            && (r == Ok(w.saved[id]) <==> !readFails && key in w.objects && w.objects[key] == w.saved[id].code))
  {
    if id in w.saved {
      KeyIsNotEmpty(cfg, w.saved[id].code);
      KeyRoundTrip(cfg.prefix, cfg.hash(w.saved[id].code));
      hide BuildKey;
    }
  }

  ghost predicate NamesUnique(w: World)
  {
    forall a, b :: a in w.db && b in w.db && w.db[a].name == w.db[b].name ==> a == b
  }

  /** Main result: with names unique before, they are unique after every event except an update that
      writes its row under the name of another function; the service checks the name of a new
      function only, and leaves that case to the database. */
  lemma NamesStayUniqueIff(cfg: Config, w: World, e: Event)
    requires forall b :: |cfg.hash(b)| >= 2
    requires NamesUnique(w)
    ensures NamesUnique(Apply(cfg, w, e)) <==>
            !(&& e.Update? && Replaces(cfg, w, e.f, e.fs) && e.fs.save != Refused
              && exists id :: id in w.db && id != e.f.id && w.db[id].name == e.f.name)
  {
    hide BuildKey, Valid, KeyOf, Replaces, Created, Updated;
    var w' := Apply(cfg, w, e);
    match e
    case Create(f, fs) => CreateRow(cfg, w, f, fs);
    case Update(f, fs) =>
      UpdateRow(cfg, w, f, fs);
      if id :| id in w.db && id != f.id && w.db[id].name == f.name {
        if Replaces(cfg, w, f, fs) && fs.save != Refused {
          assert w'.db[id].name == w'.db[f.id].name;
        }
      }
    case Delete(_, _) =>
    case Corrupt(_, _) =>
    case Vanish(_) =>
  }

  /** A create writes no row, or one whose name no other row has. */
  lemma CreateRow(cfg: Config, w: World, f: Function, fs: Faults)
    requires forall b :: |cfg.hash(b)| >= 2
    ensures var w' := Created(cfg, w, f, fs).0;
            || w'.db == w.db
            || (&& w'.db == w.db[f.id := RowOf(f, KeyOf(cfg, f.code))]
                && forall id :: id in w.db ==> w.db[id].name != f.name)
  {
    hide BuildKey, Valid;
  }

  /** The row an update writes. */
  lemma UpdateRow(cfg: Config, w: World, f: Function, fs: Faults)
    requires forall b :: |cfg.hash(b)| >= 2
    ensures var w' := Updated(cfg, w, f, fs).0;
            if Replaces(cfg, w, f, fs) && fs.save != Refused then w'.db == w.db[f.id := RowOf(f, KeyOf(cfg, f.code))]
            else w'.db == w.db
  {
    hide BuildKey, Valid;
  }

  // ---------------------------------------------------------------------
  // The object
  // ---------------------------------------------------------------------

  class FunctionService {
    const cfg: Config
    var db: map<string, Row>
    var objects: map<string, Bytes>
    ghost var saved: map<string, Function>

    ghost function View(): World
      reads this
    {
      World(db, objects, saved)
    }

    constructor (cfg: Config)
      ensures this.cfg == cfg && View() == EMPTY
    {
      this.cfg := cfg;
      db, objects, saved := map[], map[], map[];
    }

    method StoreCode(code: Bytes, fs: StoreFaults) returns (r: Result<string>)
      requires forall b :: |cfg.hash(b)| >= 2
      modifies this`objects
      ensures (objects, r) == Store(cfg, old(objects), code, fs)
    {
      if code == [] {
        return Err(StorageFault);
      }
      var key := BuildKey(cfg.prefix, cfg.hash(code));
      if !fs.headFails && key in objects {
        return Ok(key);
      }
      if fs.put != Refused {
        objects := objects[key := code];
      }
      r := if fs.put == Done then Ok(key) else Err(StorageFault);
    }

    method RetrieveCode(key: string, fails: bool) returns (r: Result<Bytes>)
      ensures r == Retrieve(cfg, objects, key, fails)
    {
      if key == "" || fails || key !in objects {
        return Err(StorageFault);
      }
      var code := objects[key];
      var hashStr := ExtractHashFromKey(key);
      if hashStr != "" {
        if cfg.hash(code) != hashStr {
          return Err(HashMismatch);
        }
      }
      return Ok(code);
    }

    method EraseCode(key: string, outcome: Outcome)
      modifies this`objects
      ensures objects == Erase(old(objects), key, outcome)
    {
      if key != "" && outcome != Refused {
        objects := objects - {key};
      }
    }

    method SaveRow(f: Function, key: string, outcome: Outcome)
      modifies this`db, this`saved
      ensures View() == Save(old(View()), f, key, outcome)
    {
      if outcome != Refused {
        db := db[f.id := RowOf(f, key)];
        saved := saved[f.id := f];
      }
    }

    method CreateFunction(f: Function, fs: Faults) returns (r: Result<()>)
      requires forall b :: |cfg.hash(b)| >= 2
      modifies this
      ensures (View(), r) == Created(cfg, old(View()), f, fs)
    {
      var valid := Validate(f);
      if valid.Err? {
        return Err(valid.error);
      }
      if fs.lookupFails {
        return Err(DatabaseFault);
      }
      if exists id :: id in db && db[id].name == f.name {
        return Err(FunctionExists);
      }
      var key := StoreCode(f.code, fs.store);
      if key.Err? {
        return Err(key.error);
      }
      SaveRow(f, key.value, fs.save);
      if fs.save != Done {
        EraseCode(key.value, fs.erase);
        return Err(DatabaseFault);
      }
      return Ok(());
    }

    method GetFunction(id: string, lookupFails: bool, readFails: bool) returns (r: Result<Function>)
      ensures r == Fetched(cfg, View(), id, lookupFails, readFails)
    {
      if lookupFails {
        return Err(DatabaseFault);
      }
      if id !in db {
        return Err(NotFound);
      }
      var row := db[id];
      var code := RetrieveCode(row.codeKey, readFails);
      if code.Err? {
        return Err(code.error);
      }
      return Ok(Function(id, row.name, row.runtime, row.memory, row.timeoutSeconds, code.value));
    }

    method UpdateFunction(f: Function, fs: Faults) returns (r: Result<()>)
      requires forall b :: |cfg.hash(b)| >= 2
      modifies this
      ensures (View(), r) == Updated(cfg, old(View()), f, fs)
    {
      var valid := Validate(f);
      if valid.Err? {
        return Err(valid.error);
      }
      if fs.lookupFails {
        return Err(DatabaseFault);
      }
      if f.id !in db {
        return Err(NotFound);
      }
      var oldKey := db[f.id].codeKey;
      var newKey := oldKey;
      if |f.code| > 0 {
        var key := StoreCode(f.code, fs.store);
        if key.Err? {
          return Err(key.error);
        }
        newKey := key.value;
        if oldKey != newKey {
          EraseCode(oldKey, fs.erase);
        }
      }
      SaveRow(f, newKey, fs.save);
      r := if fs.save == Done then Ok(()) else Err(DatabaseFault);
    }

    method DeleteFunction(id: string, fs: Faults) returns (r: Result<()>)
      modifies this
      ensures (View(), r) == Deleted(old(View()), id, fs)
    {
      if fs.lookupFails {
        return Err(DatabaseFault);
      }
      if id !in db {
        return Err(NotFound);
      }
      var codeKey := db[id].codeKey;
      if fs.save == Refused {
        return Err(DatabaseFault);
      }
      db, saved := db - {id}, saved - {id};
      if fs.save == Lost {
        return Err(DatabaseFault);
      }
      EraseCode(codeKey, fs.erase);
      return Ok(());
    }
  }
}
