/** The content-addressed cache of base images (internal/imagecache/cache.go) under every
    interleaving of concurrent Gets: lookups by pinned digest, fetches coalesced per key, temp
    files written while streaming, verified, and renamed into place or removed. */
module ImageCache {

  type Bytes = string

  // ----- Names -----

  predicate LowerHexDigit(c: char) { '0' <= c <= '9' || 'a' <= c <= 'f' }

  predicate HexDigit(c: char) { LowerHexDigit(c) || 'A' <= c <= 'F' }

  /** A lower-case hex digest, which is how finished files are named. */
  predicate DigestName(s: string) { s != "" && forall i | 0 <= i < |s| :: LowerHexDigit(s[i]) }

  predicate WellFormedPin(s: string) { s != "" && forall i | 0 <= i < |s| :: HexDigit(s[i]) }

  function LowerChar(c: char): char { if 'A' <= c <= 'Z' then ((c as int) + 32) as char else c }

  function Lower(s: string): (r: string)
    ensures |r| == |s| && forall i | 0 <= i < |s| :: r[i] == LowerChar(s[i])
  {
    if s == "" then "" else Lower(s[..|s| - 1]) + [LowerChar(s[|s| - 1])]
  }

  /** The names os.CreateTemp gives out. */
  predicate TempName(s: string) { ".part-" <= s }

  lemma LowerOfDigest(s: string)
    requires DigestName(s)
    ensures Lower(s) == s
  {
  }

  lemma LowerOfPin(s: string)
    requires WellFormedPin(s)
    ensures DigestName(Lower(s))
  {
    assert forall i | 0 <= i < |s| :: Lower(s)[i] == LowerChar(s[i]);
  }

  lemma TempIsNoDigest(s: string)
    requires TempName(s)
    ensures !DigestName(s)
  {
    assert s[0] == '.';
  }

  /** A pin that some digest equals case-insensitively is a hex string. */
  lemma MatchedPinIsWellFormed(digest: string, pin: string)
    requires DigestName(digest) && Lower(digest) == Lower(pin)
    ensures WellFormedPin(pin)
  {
    LowerOfDigest(digest);
    forall i | 0 <= i < |pin|
      ensures HexDigit(pin[i])
    {
      assert digest[i] == LowerChar(pin[i]) && LowerHexDigit(digest[i]);
    }
  }

  // ----- State -----

  datatype Entry = Entry(path: string, sha256: string)

  datatype Outcome = Found(entry: Entry) | Error

  /** A Get: not yet looked up, waiting for the fetch of its key, or returned. */
  datatype Get =
    | Asking(source: string, pin: string)
    | Joined(key: string, pin: string)
    | Done(pin: string, outcome: Outcome)

  /** A fetch in flight: opening the source, or streaming into a temp file. */
  datatype Flight = Opening(pin: string) | Streaming(pin: string, temp: string)

  datatype State = State(
    gets: map<nat, Get>, flights: map<string, Flight>, files: map<string, Bytes>, orphans: set<string>)

  /** `removed` is false when removing the temp file fails. */
  datatype Event =
    | Ask(g: nat, source: string, pin: string)
    | Look(g: nat)
    | Open(key: string, works: bool, temp: string)
    | Stream(key: string, chunk: Bytes)
    | Break(key: string, removed: bool)
    | Close(key: string, renames: bool, removed: bool)
    | Restart

  /** The singleflight key: source key, colon, pin. */
  function FlightKey(source: string, pin: string): string { source + ":" + pin }

  /** The fetch of `key` ends: everyone who joined it gets the outcome. */
  function Land(s: State, key: string, outcome: Outcome): State {
    s.(flights := s.flights - {key},
       gets := map g | g in s.gets ::
         if s.gets[g].Joined? && s.gets[g].key == key then Done(s.gets[g].pin, outcome) else s.gets[g])
  }

  function Discard(s: State, temp: string, removed: bool): State {
    if removed then s.(files := s.files - {temp}) else s.(orphans := s.orphans + {temp})
  }

  /** `hash` gives the lower-case hex digest of a file's bytes. */
  function Step(hash: Bytes -> string, s: State, e: Event): State {
    match e
    case Ask(g, source, pin) => if g in s.gets then s else s.(gets := s.gets[g := Asking(source, pin)])
    case Look(g) =>
      if g !in s.gets || !s.gets[g].Asking? then s
      else
        var Asking(source, pin) := s.gets[g];
        var path := Lower(pin);
        if pin != "" && path in s.files then s.(gets := s.gets[g := Done(pin, Found(Entry(path, Lower(pin))))])
        else
          var key := FlightKey(source, pin);
          s.(gets := s.gets[g := Joined(key, pin)],
             flights := if key in s.flights then s.flights else s.flights[key := Opening(pin)])
    case Open(key, works, temp) =>
      if key !in s.flights || !s.flights[key].Opening? then s
      else if !works then Land(s, key, Error)
      else if temp in s.files || !TempName(temp) then s   // CreateTemp picks an unused name
      else s.(flights := s.flights[key := Streaming(s.flights[key].pin, temp)], files := s.files[temp := ""])
    case Stream(key, chunk) =>
      if key !in s.flights || !s.flights[key].Streaming? || s.flights[key].temp !in s.files then s
      else s.(files := s.files[s.flights[key].temp := s.files[s.flights[key].temp] + chunk])
    case Break(key, removed) =>
      if key !in s.flights || !s.flights[key].Streaming? then s
      else Land(Discard(s, s.flights[key].temp, removed), key, Error)
    case Close(key, renames, removed) =>
      if key !in s.flights || !s.flights[key].Streaming? || s.flights[key].temp !in s.files then s
      else
        var Streaming(pin, temp) := s.flights[key];
        var digest := hash(s.files[temp]);
        if (pin != "" && Lower(digest) != Lower(pin)) || !renames then Land(Discard(s, temp, removed), key, Error)
        else
          Land(s.(files := (s.files - {temp})[digest := s.files[temp]]), key, Found(Entry(digest, digest)))
    case Restart =>
      State(map[], map[], s.files,
            s.orphans + set k | k in s.flights && s.flights[k].Streaming? :: s.flights[k].temp)
  }

  function Run(hash: Bytes -> string, s: State, events: seq<Event>): State {
    if events == [] then s
    else Step(hash, Run(hash, s, events[..|events| - 1]), events[|events| - 1])
  }

  // ----- Invariant -----

  ghost predicate FilesHash(hash: Bytes -> string, s: State) {
    forall f | f in s.files && DigestName(f) :: hash(s.files[f]) == f
  }

  predicate Owns(s: State, k: string, f: string) { k in s.flights && s.flights[k].Streaming? && s.flights[k].temp == f }

  /** Temp files belong to one flight each or were left by a failed removal. */
  ghost predicate TempsOwned(s: State) {
    && (forall k | k in s.flights && s.flights[k].Streaming? ::
          && s.flights[k].temp in s.files && !DigestName(s.flights[k].temp) && s.flights[k].temp !in s.orphans)
    && (forall k, l, f | Owns(s, k, f) && Owns(s, l, f) :: k == l)
    && (forall f | f in s.files && !DigestName(f) ::
          f in s.orphans || exists k :: Owns(s, k, f))
    && (forall f | f in s.orphans :: f in s.files && !DigestName(f))
  }

  predicate PinOk(pin: string) { pin == "" || WellFormedPin(pin) }

  /** A flight carries the pin of everyone who joined it, unless it is a pin no file can match. */
  ghost predicate PinsShared(s: State) {
    && (forall g | g in s.gets && s.gets[g].Joined? ::
          && s.gets[g].key in s.flights
          && (PinOk(s.gets[g].pin) && PinOk(s.flights[s.gets[g].key].pin)
              ==> s.flights[s.gets[g].key].pin == s.gets[g].pin))
    && (forall k | k in s.flights :: KeyOfPin(k, s.flights[k].pin))
  }

  /** `key` is the flight key of some source with this pin. */
  predicate KeyOfPin(key: string, pin: string) { |key| > |pin| && key[|key| - |pin| - 1..] == ":" + pin }

  ghost predicate EntriesTrue(hash: Bytes -> string, s: State) {
    forall g | g in s.gets && s.gets[g].Done? && s.gets[g].outcome.Found? && PinOk(s.gets[g].pin) ::
      var e := s.gets[g].outcome.entry;
      && e.path in s.files && DigestName(e.path)
      && e.sha256 == hash(s.files[e.path])
      && (s.gets[g].pin != "" ==> Lower(e.sha256) == Lower(s.gets[g].pin))
  }

  ghost predicate Sound(hash: Bytes -> string, s: State) {
    FilesHash(hash, s) && TempsOwned(s) && PinsShared(s) && EntriesTrue(hash, s)
  }

  lemma KeyEndsInPin(source: string, pin: string)
    ensures KeyOfPin(FlightKey(source, pin), pin)
  {
    var k := FlightKey(source, pin);
    assert k[|k| - |pin| - 1..] == ":" + pin;
  }

  /** Two usable pins under one key are the same: hex strings contain no colon. */
  lemma KeyFixesPin(key: string, pin: string, pin': string)
    requires KeyOfPin(key, pin) && KeyOfPin(key, pin') && PinOk(pin) && PinOk(pin')
    ensures pin == pin'
  {
    assert key[|key| - |pin| - 1] == ':' && key[|key| - |pin'| - 1] == ':';
    assert forall i | |key| - |pin| <= i < |key| :: key[i] == pin[i - (|key| - |pin|)];
    assert forall i | |key| - |pin'| <= i < |key| :: key[i] == pin'[i - (|key| - |pin'|)];
    assert |pin| == |pin'|;
    assert pin == key[|key| - |pin|..] == pin';
  }

  lemma LookStep(hash: Bytes -> string, s: State, g: nat)
    requires Sound(hash, s) && g in s.gets && s.gets[g].Asking?
    ensures Sound(hash, Step(hash, s, Look(g)))
  {
    hide Lower, DigestName, WellFormedPin, FlightKey, KeyOfPin;
    var source, pin := s.gets[g].source, s.gets[g].pin;
    var path, key, s' := Lower(pin), FlightKey(source, pin), Step(hash, s, Look(g));
    if pin != "" && path in s.files {
      if WellFormedPin(pin) {
        LowerOfPin(pin);
        LowerOfDigest(path);
      }
      SameFlights(s, s');
    } else {
      KeyEndsInPin(source, pin);
      if key in s.flights && PinOk(pin) && PinOk(s.flights[key].pin) {
        KeyFixesPin(key, pin, s.flights[key].pin);
      }
      SameTemps(s, s');
    }
  }

  lemma SameFlights(s: State, s': State)
    requires TempsOwned(s) && s'.flights == s.flights && s'.files == s.files && s'.orphans == s.orphans
    ensures TempsOwned(s')
  {
    SameTemps(s, s');
  }

  /** The temp files stay owned as long as the same flights own the same ones. */
  lemma SameTemps(s: State, s': State)
    requires TempsOwned(s) && s'.files.Keys == s.files.Keys && s'.orphans == s.orphans
    requires forall k, f :: Owns(s', k, f) <==> Owns(s, k, f)
    ensures TempsOwned(s')
  {
    hide DigestName;
    forall k | k in s'.flights && s'.flights[k].Streaming?
      ensures s'.flights[k].temp in s'.files && !DigestName(s'.flights[k].temp) && s'.flights[k].temp !in s'.orphans
    {
      assert Owns(s', k, s'.flights[k].temp);
    }
  }

  lemma OpenStep(hash: Bytes -> string, s: State, key: string, temp: string)
    requires Sound(hash, s) && key in s.flights && s.flights[key].Opening? && temp !in s.files && TempName(temp)
    ensures Sound(hash, Step(hash, s, Open(key, true, temp)))
  {
    hide Lower, DigestName, WellFormedPin, FlightKey, KeyOfPin, TempName;
    TempIsNoDigest(temp);
    var s' := Step(hash, s, Open(key, true, temp));
    forall f | f in s'.files && !DigestName(f)
      ensures f in s'.orphans || exists k :: Owns(s', k, f)
    {
      if f == temp {
        assert Owns(s', key, f);
      } else if f !in s.orphans {
        var k :| Owns(s, k, f);
        assert Owns(s', k, f);
      }
    }
    assert forall k, f | Owns(s', k, f) :: Owns(s, k, f) || (k == key && f == temp);
  }

  lemma StreamStep(hash: Bytes -> string, s: State, key: string, chunk: Bytes)
    requires Sound(hash, s)
    ensures Sound(hash, Step(hash, s, Stream(key, chunk)))
  {
    hide Lower, DigestName, WellFormedPin, FlightKey, KeyOfPin;
    SameTemps(s, Step(hash, s, Stream(key, chunk)));
  }

  lemma PinsLand(s: State, key: string, outcome: Outcome)
    requires PinsShared(s)
    ensures PinsShared(Land(s, key, outcome))
  {
    hide WellFormedPin, KeyOfPin;
  }

  lemma EntriesLandError(hash: Bytes -> string, s: State, key: string)
    requires EntriesTrue(hash, s)
    ensures EntriesTrue(hash, Land(s, key, Error))
  {
    hide WellFormedPin, DigestName, Lower;
  }

  /** A fetch that fails: its temp file is removed or left behind, and nothing else changes. */
  lemma FailStep(hash: Bytes -> string, s: State, key: string, removed: bool)
    requires Sound(hash, s) && key in s.flights && s.flights[key].Streaming?
    ensures Sound(hash, Land(Discard(s, s.flights[key].temp, removed), key, Error))
  {
    hide Lower, DigestName, WellFormedPin, FlightKey, KeyOfPin, PinsShared, EntriesTrue;
    var temp := s.flights[key].temp;
    var s1 := Discard(s, temp, removed);
    assert PinsShared(s1) by { PinsIgnoreFiles(s, s1); }
    assert EntriesTrue(hash, s1) by { EntriesKeep(hash, s, s1, temp); }
    PinsLand(s1, key, Error);
    EntriesLandError(hash, s1, key);
    TempsLand(s, key, s1, Land(s1, key, Error), removed);
  }

  lemma PinsIgnoreFiles(s: State, s': State)
    requires PinsShared(s) && s'.gets == s.gets && s'.flights == s.flights
    ensures PinsShared(s')
  {
  }

  lemma EntriesKeep(hash: Bytes -> string, s: State, s': State, temp: string)
    requires EntriesTrue(hash, s) && !DigestName(temp) && s'.gets == s.gets
    requires s'.files == s.files || s'.files == s.files - {temp}
    ensures EntriesTrue(hash, s')
  {
    hide DigestName, Lower, WellFormedPin;
  }

  lemma TempsLand(s: State, key: string, s1: State, s2: State, removed: bool)
    requires TempsOwned(s) && key in s.flights && s.flights[key].Streaming?
    requires s1 == Discard(s, s.flights[key].temp, removed) && s2 == Land(s1, key, Error)
    ensures TempsOwned(s2)
  {
    hide DigestName;
    var temp := s.flights[key].temp;
    assert Owns(s, key, temp);
    forall k, f | Owns(s2, k, f)
      ensures Owns(s, k, f) && f != temp
    {
      assert Owns(s, k, f);
    }
    forall f | f in s2.files && !DigestName(f)
      ensures f in s2.orphans || exists k :: Owns(s2, k, f)
    {
      if f != temp && f !in s.orphans {
        var k :| Owns(s, k, f);
        assert Owns(s2, k, f);
      }
    }
    forall k | k in s2.flights && s2.flights[k].Streaming?
      ensures s2.flights[k].temp in s2.files && !DigestName(s2.flights[k].temp) && s2.flights[k].temp !in s2.orphans
    {
      assert Owns(s2, k, s2.flights[k].temp);
    }
  }

  /** A fetch that succeeds: the verified file takes its digest's name. */
  lemma RenameStep(hash: Bytes -> string, s: State, key: string)
    requires Sound(hash, s) && key in s.flights && s.flights[key].Streaming?
    requires var digest := hash(s.files[s.flights[key].temp]);
             DigestName(digest) && (s.flights[key].pin == "" || Lower(digest) == Lower(s.flights[key].pin))
    ensures var temp := s.flights[key].temp;
            var digest := hash(s.files[temp]);
            Sound(hash, Land(s.(files := (s.files - {temp})[digest := s.files[temp]]), key,
                Found(Entry(digest, digest))))
  {
    hide Lower, DigestName, WellFormedPin, FlightKey, KeyOfPin, TempsOwned;
    var pin, temp := s.flights[key].pin, s.flights[key].temp;
    assert temp in s.files && !DigestName(temp) by { OwnedTemp(s, key); }
    var digest := hash(s.files[temp]);
    var s1 := s.(files := (s.files - {temp})[digest := s.files[temp]]);
    var s2 := Land(s1, key, Found(Entry(digest, digest)));
    if pin != "" {
      MatchedPinIsWellFormed(digest, pin);
    }
    PinsIgnoreFiles(s, s1);
    PinsLand(s1, key, Found(Entry(digest, digest)));
    TempsRename(s, key, digest, s2);
  }

  lemma OwnedTemp(s: State, key: string)
    requires TempsOwned(s) && key in s.flights && s.flights[key].Streaming?
    ensures s.flights[key].temp in s.files && !DigestName(s.flights[key].temp)
  {
  }

  lemma TempsRename(s: State, key: string, digest: string, s2: State)
    requires TempsOwned(s) && key in s.flights && s.flights[key].Streaming? && DigestName(digest)
    requires s2.flights == s.flights - {key} && s2.orphans == s.orphans
    requires s2.files.Keys == s.files.Keys - {s.flights[key].temp} + {digest}
    ensures TempsOwned(s2)
  {
    hide DigestName;
    var temp := s.flights[key].temp;
    assert Owns(s, key, temp);
    forall k, f | Owns(s2, k, f)
      ensures Owns(s, k, f) && f != temp
    {
      assert Owns(s, k, f);
    }
    forall f | f in s2.files && !DigestName(f)
      ensures f in s2.orphans || exists k :: Owns(s2, k, f)
    {
      if f !in s.orphans {
        var k :| Owns(s, k, f);
        assert Owns(s2, k, f);
      }
    }
    forall k | k in s2.flights && s2.flights[k].Streaming?
      ensures s2.flights[k].temp in s2.files && !DigestName(s2.flights[k].temp) && s2.flights[k].temp !in s2.orphans
    {
      assert Owns(s2, k, s2.flights[k].temp);
    }
  }

  lemma RestartStep(hash: Bytes -> string, s: State)
    requires Sound(hash, s)
    ensures Sound(hash, Step(hash, s, Restart))
  {
    hide Lower, DigestName, WellFormedPin, FlightKey, KeyOfPin;
    var s' := Step(hash, s, Restart);
    forall f | f in s'.files && !DigestName(f)
      ensures f in s'.orphans
    {
      if f !in s.orphans {
        var k :| Owns(s, k, f);
      }
    }
  }

  lemma AskStep(hash: Bytes -> string, s: State, g: nat, source: string, pin: string)
    requires Sound(hash, s)
    ensures Sound(hash, Step(hash, s, Ask(g, source, pin)))
  {
    hide Lower, DigestName, WellFormedPin, FlightKey, KeyOfPin;
    SameFlights(s, Step(hash, s, Ask(g, source, pin)));
  }

  lemma OpenFails(hash: Bytes -> string, s: State, key: string)
    requires Sound(hash, s) && key in s.flights && s.flights[key].Opening?
    ensures Sound(hash, Land(s, key, Error))
  {
    hide Lower, DigestName, WellFormedPin, FlightKey, KeyOfPin, PinsShared, EntriesTrue;
    PinsLand(s, key, Error);
    EntriesLandError(hash, s, key);
    SameTemps(s, Land(s, key, Error));
  }

  /** Over every interleaving of concurrent Gets, with failing opens, streams, closes, renames
      and removals, mismatching digests and restarts: every file named by a digest hashes to
      that name; every entry a Get returned without a pin or with a hex pin names a file that
      hashes to the entry's digest and to the pin; and the only temp files are those of fetches
      in flight and those whose removal failed or was cut off by a restart. */
  lemma {:induction false} CacheIsSound(hash: Bytes -> string, s: State, events: seq<Event>)
    requires Sound(hash, s)
    requires forall b :: DigestName(hash(b))
    ensures Sound(hash, Run(hash, s, events))
  {
    hide Sound, Lower, DigestName, WellFormedPin, FlightKey, KeyOfPin, TempName;
    if events != [] {
      var e := events[|events| - 1];
      CacheIsSound(hash, s, events[..|events| - 1]);
      var t := Run(hash, s, events[..|events| - 1]);
      match e
      case Ask(g, source, pin) => AskStep(hash, t, g, source, pin);
      case Look(g) =>
        if g in t.gets && t.gets[g].Asking? {
          LookStep(hash, t, g);
        }
      case Open(key, works, temp) =>
        if key in t.flights && t.flights[key].Opening? {
          if !works {
            OpenFails(hash, t, key);
          } else if temp !in t.files && TempName(temp) {
            OpenStep(hash, t, key, temp);
          }
        }
      case Stream(key, chunk) => StreamStep(hash, t, key, chunk);
      case Break(key, removed) =>
        if key in t.flights && t.flights[key].Streaming? {
          FailStep(hash, t, key, removed);
        }
      case Close(key, renames, removed) =>
        if key in t.flights && t.flights[key].Streaming? && t.flights[key].temp in t.files {
          FailStep(hash, t, key, removed);
          var pin, digest := t.flights[key].pin, hash(t.files[t.flights[key].temp]);
          if !((pin != "" && Lower(digest) != Lower(pin)) || !renames) {
            RenameStep(hash, t, key);
          }
        }
      case Restart => RestartStep(hash, t);
    }
  }

  /** An empty cache directory is sound. */
  lemma EmptyIsSound(hash: Bytes -> string)
    ensures Sound(hash, State(map[], map[], map[], {}))
  {
  }

  ghost predicate Truthful(hash: Bytes -> string, s: State, pin: string, e: Entry) {
    && e.path in s.files && hash(s.files[e.path]) == e.sha256
    && (pin != "" ==> e.sha256 == Lower(pin))
  }

  /** What a caller may rely on, exactly: an entry that a Get returned names a file with the entry's
      digest, which is the pinned one, if and only if the pin is empty or hex. */
  lemma ReturnedEntryIsTrueExactly(hash: Bytes -> string, events: seq<Event>, g: nat)
    requires forall b :: DigestName(hash(b))
    requires var s := Run(hash, State(map[], map[], map[], {}), events);
             g in s.gets && s.gets[g].Done? && s.gets[g].outcome.Found?
    ensures var s := Run(hash, State(map[], map[], map[], {}), events);
            Truthful(hash, s, s.gets[g].pin, s.gets[g].outcome.entry) <==> PinOk(s.gets[g].pin)
  {
    hide Run, Lower, WellFormedPin;
    EmptyIsSound(hash);
    CacheIsSound(hash, State(map[], map[], map[], {}), events);
    var s := Run(hash, State(map[], map[], map[], {}), events);
    var pin, e := s.gets[g].pin, s.gets[g].outcome.entry;
    if PinOk(pin) {
      LowerOfDigest(e.sha256);
    } else if Truthful(hash, s, pin, e) {
      LowerOfDigest(e.sha256);
      MatchedPinIsWellFormed(e.sha256, pin);
    }
  }

  /** A pin that is no digest can name a temp file, which is then returned unverified. */
  lemma MalformedPinFindsTemp(hash: Bytes -> string)
    ensures var s := Run(hash, State(map[], map[], map[], {}), TempHit());
            1 in s.gets && s.gets[1] == Done(".part-1", Found(Entry(".part-1", ".part-1")))
  {
    hide Run;
    var s0 := State(map[], map[], map[], {});
    var s1 := Step(hash, s0, Ask(0, "s", ""));
    var s2 := Step(hash, s1, Look(0));
    assert FlightKey("s", "") == "s:";
    assert "s:" in s2.flights && s2.flights["s:"] == Opening("");
    var s3 := Step(hash, s2, Open("s:", true, ".part-1"));
    assert ".part-1" in s3.files && 1 !in s3.gets;
    var s4 := Step(hash, s3, Ask(1, "s", ".part-1"));
    LowerOfTemp();
    assert Step(hash, s4, Look(1)).gets[1] == Done(".part-1", Found(Entry(".part-1", ".part-1")));
    RunOfFive(hash, s0, Ask(0, "s", ""), Look(0), Open("s:", true, ".part-1"), Ask(1, "s", ".part-1"), Look(1));
  }

  lemma RunOfFive(hash: Bytes -> string, s: State, a: Event, b: Event, c: Event, d: Event, e: Event)
    ensures Run(hash, s, [a, b, c, d, e])
        == Step(hash, Step(hash, Step(hash, Step(hash, Step(hash, s, a), b), c), d), e)
  {
    hide Step;
    assert [a, b, c, d, e][..4] == [a, b, c, d] && [a, b, c, d][..3] == [a, b, c];
    assert [a, b, c][..2] == [a, b] && [a, b][..1] == [a] && [a][..0] == [];
    assert Run(hash, s, [a]) == Step(hash, s, a);
    assert Run(hash, s, [a, b]) == Step(hash, Step(hash, s, a), b);
    assert Run(hash, s, [a, b, c]) == Step(hash, Step(hash, Step(hash, s, a), b), c);
  }

  lemma LowerOfTemp()
    ensures Lower(".part-1") == ".part-1"
  {
    var t := ".part-1";
    assert forall i | 0 <= i < |t| :: LowerChar(t[i]) == t[i];
  }

  /** A fetch streams into a temp file while a second Get asks for a file of that name. */
  function TempHit(): seq<Event> {
    [Ask(0, "s", ""), Look(0), Open("s:", true, ".part-1"), Ask(1, "s", ".part-1"), Look(1)]
  }

  /** When every removal succeeds and nothing restarts, no temp file outlives its fetch. */
  lemma {:induction false} NoTempSurvives(hash: Bytes -> string, events: seq<Event>)
    requires forall b :: DigestName(hash(b))
    requires forall e | e in events :: !e.Restart? && (e.Break? || e.Close? ==> e.removed)
    ensures var s := Run(hash, State(map[], map[], map[], {}), events);
            && s.orphans == {}
            && forall f | f in s.files && !DigestName(f) :: exists k :: Owns(s, k, f)
  {
    hide Sound, Lower, DigestName, WellFormedPin, FlightKey, KeyOfPin, TempName;
    var start := State(map[], map[], map[], {});
    EmptyIsSound(hash);
    CacheIsSound(hash, start, events);
    if events != [] {
      var front, e := events[..|events| - 1], events[|events| - 1];
      assert e in events;
      NoTempSurvives(hash, front);
    }
    assert TempsOwned(Run(hash, start, events)) by { SoundOwns(hash, Run(hash, start, events)); }
  }

  lemma SoundOwns(hash: Bytes -> string, s: State)
    requires Sound(hash, s)
    ensures TempsOwned(s)
  {
  }

  // ----- What a Get comes to -----

  ghost const START := State(map[], map[], map[], {})

  /** What the fetch of `key` has streamed since its source was opened. */
  ghost function Streamed(hash: Bytes -> string, events: seq<Event>, key: string): Bytes {
    if events == [] then ""
    else
      var front, last := events[..|events| - 1], events[|events| - 1];
      if last.Open? && last.key == key && last.works && Opens(Run(hash, START, front), last) then ""
      else if last.Stream? && last.key == key then Streamed(hash, front, key) + last.chunk
      else Streamed(hash, front, key)
  }

  /** The open finds its fetch waiting for it, and a fresh name for the temp file. */
  predicate Opens(s: State, e: Event)
    requires e.Open?
  {
    e.key in s.flights && s.flights[e.key].Opening? && e.temp !in s.files && TempName(e.temp)
  }

  predicate IsStreaming(s: State, key: string) { key in s.flights && s.flights[key].Streaming? }

  /** Other fetches leave the temp file of this one alone. */
  lemma TempUntouched(hash: Bytes -> string, s: State, e: Event, key: string)
    requires TempsOwned(s) && (forall b :: DigestName(hash(b))) && IsStreaming(s, key)
    requires IsStreaming(Step(hash, s, e), key) && !(e.Stream? && e.key == key)
    ensures var s', temp := Step(hash, s, e), s.flights[key].temp;
            s'.flights[key] == s.flights[key] && temp in s'.files && s'.files[temp] == s.files[temp]
  {
    hide Lower, DigestName, FlightKey, TempName;
    var temp := s.flights[key].temp;
    assert Owns(s, key, temp);
    if (e.Stream? || e.Break? || e.Close?) && IsStreaming(s, e.key) {
      assert Owns(s, e.key, s.flights[e.key].temp);
    }
  }

  lemma OpensFresh(hash: Bytes -> string, s: State, e: Event, key: string)
    requires !IsStreaming(s, key) && IsStreaming(Step(hash, s, e), key)
    ensures e.Open? && e.key == key && e.works && Opens(s, e)
    ensures var s' := Step(hash, s, e); s'.flights[key].temp in s'.files && s'.files[s'.flights[key].temp] == ""
  {
    hide Lower, FlightKey, TempName;
  }

  lemma StreamAppends(hash: Bytes -> string, s: State, key: string, chunk: Bytes)
    requires IsStreaming(s, key) && s.flights[key].temp in s.files
    ensures var s', temp := Step(hash, s, Stream(key, chunk)), s.flights[key].temp;
            s'.flights == s.flights && temp in s'.files && s'.files[temp] == s.files[temp] + chunk
  {
  }

  /** Over every run: the temp file of a fetch holds what was streamed, in order and nothing else. */
  lemma {:induction false} TempHoldsStream(hash: Bytes -> string, events: seq<Event>, key: string)
    requires (forall b :: DigestName(hash(b))) && IsStreaming(Run(hash, START, events), key)
    ensures var s := Run(hash, START, events);
            s.flights[key].temp in s.files && s.files[s.flights[key].temp] == Streamed(hash, events, key)
  {
    hide Step, Opens, Lower, DigestName;
    if events != [] {
      var front, last := events[..|events| - 1], events[|events| - 1];
      var s := Run(hash, START, front);
      if !IsStreaming(s, key) {
        OpensFresh(hash, s, last, key);
      } else {
        TempHoldsStream(hash, front, key);
        assert TempsOwned(s) by { ReachedOwns(hash, front); }
        if last.Stream? && last.key == key {
          StreamAppends(hash, s, key, last.chunk);
        } else {
          TempUntouched(hash, s, last, key);
          NotOpening(s, last, key);
        }
      }
    }
  }

  lemma NotOpening(s: State, e: Event, key: string)
    requires IsStreaming(s, key)
    ensures !(e.Open? && e.key == key && Opens(s, e))
  {
  }

  lemma ReachedOwns(hash: Bytes -> string, events: seq<Event>)
    requires forall b :: DigestName(hash(b))
    ensures Sound(hash, Run(hash, START, events)) && TempsOwned(Run(hash, START, events))
  {
    hide Run, Sound, TempsOwned, DigestName;
    EmptyIsSound(hash);
    CacheIsSound(hash, START, events);
    SoundOwns(hash, Run(hash, START, events));
  }

  /** The pin is met: there is none, or it is the digest up to case. */
  predicate PinMet(pin: string, digest: string) { pin == "" || Lower(pin) == Lower(digest) }

  /** A fetch succeeds.  Over every run, when a fetch is closed, its file can be renamed and its pin is met,
      everyone who joined it gets the entry of what was streamed, and the cache holds it. */
  lemma FetchDelivers(hash: Bytes -> string, events: seq<Event>, key: string, g: nat, removed: bool)
    requires forall b :: DigestName(hash(b))
    requires var s := Run(hash, START, events);
             && IsStreaming(s, key) && g in s.gets && s.gets[g].Joined? && s.gets[g].key == key
             && PinMet(s.flights[key].pin, hash(Streamed(hash, events, key)))
    ensures var s, b := Run(hash, START, events), Streamed(hash, events, key);
            var s' := Step(hash, s, Close(key, true, removed));
            && g in s'.gets && s'.gets[g] == Done(s.gets[g].pin, Found(Entry(hash(b), hash(b))))
            && hash(b) in s'.files && s'.files[hash(b)] == b
  {
    hide Run, Lower, Streamed;
    TempHoldsStream(hash, events, key);
  }

  /** The fetch that `g` waits for fails here. */
  predicate FailsAt(hash: Bytes -> string, s: State, e: Event, g: nat) {
    && g in s.gets && s.gets[g].Joined? && s.gets[g].key in s.flights
    && var key, f := s.gets[g].key, s.flights[s.gets[g].key];
    match e
    case Open(k, works, _) => k == key && f.Opening? && !works
    case Break(k, _) => k == key && f.Streaming?
    case Close(k, renames, _) =>
      && k == key && f.Streaming? && f.temp in s.files
      && (!renames || !PinMet(f.pin, hash(s.files[f.temp])))
    case _ => false
  }

  predicate Failed(s: State, g: nat) { g in s.gets && s.gets[g].Done? && s.gets[g].outcome.Error? }

  lemma FailsByEvent(hash: Bytes -> string, s: State, e: Event, g: nat)
    requires !e.Restart?
    ensures Failed(Step(hash, s, e), g) <==> Failed(s, g) || FailsAt(hash, s, e, g)
  {
    hide Lower, FlightKey, TempName;
  }

  /** Since the last restart, the fetch of `g` failed. */
  ghost predicate HasFailed(hash: Bytes -> string, events: seq<Event>, g: nat) {
    events != [] &&
    var front, last := events[..|events| - 1], events[|events| - 1];
    !last.Restart? && (HasFailed(hash, front, g) || FailsAt(hash, Run(hash, START, front), last, g))
  }

  /** A Get fails, exactly: over every run it ends in an error if and only if the open, the stream or the
      rename of its fetch failed, or a pin was not met. */
  lemma {:induction false} FailsExactly(hash: Bytes -> string, events: seq<Event>, g: nat)
    ensures Failed(Run(hash, START, events), g) <==> HasFailed(hash, events, g)
  {
    hide Step, FailsAt;
    if events != [] {
      var front, last := events[..|events| - 1], events[|events| - 1];
      FailsExactly(hash, front, g);
      if last.Restart? {
        RestartForgets(hash, Run(hash, START, front));
      } else {
        FailsByEvent(hash, Run(hash, START, front), last, g);
      }
    }
  }

  lemma RestartForgets(hash: Bytes -> string, s: State)
    ensures Step(hash, s, Restart).gets == map[]
  {
  }

  lemma DigestStaysOnce(hash: Bytes -> string, s: State, e: Event, d: string)
    requires TempsOwned(s) && d in s.files && DigestName(d)
    ensures d in Step(hash, s, e).files
  {
    hide Lower, DigestName, FlightKey, TempName;
  }

  /** What is in the cache stays there, and stays true. */
  lemma {:induction false} CachedStays(hash: Bytes -> string, events: seq<Event>, more: seq<Event>, d: string)
    requires forall b :: DigestName(hash(b))
    requires DigestName(d) && d in Run(hash, START, events).files
    ensures var s := Run(hash, START, events + more); d in s.files && hash(s.files[d]) == d
  {
    hide Step, DigestName, TempsOwned, PinsShared, EntriesTrue;
    ReachedOwns(hash, events + more);
    if more == [] {
      assert events + more == events;
    } else {
      var n := |more| - 1;
      assert (events + more)[..|events| + n] == events + more[..n] && (events + more)[|events| + n] == more[n];
      CachedStays(hash, events, more[..n], d);
      ReachedOwns(hash, events + more[..n]);
      DigestStaysOnce(hash, Run(hash, START, events + more[..n]), more[n], d);
    }
  }

  /** A lookup, exactly: a pin whose file is in the cache is answered at once and starts nothing; any other
      Get joins the fetch of its source and pin, which goes on undisturbed if it is under way. */
  lemma LookExactly(hash: Bytes -> string, s: State, g: nat)
    requires g in s.gets && s.gets[g].Asking?
    ensures var s', pin, key := Step(hash, s, Look(g)), s.gets[g].pin, s.gets[g].source + ":" + s.gets[g].pin;
            && s'.files == s.files && g in s'.gets
            && (pin != "" && Lower(pin) in s.files ==>
                  && s'.gets[g] == Done(pin, Found(Entry(Lower(pin), Lower(pin)))) && s'.flights == s.flights)
            && (!(pin != "" && Lower(pin) in s.files) ==>
                  && s'.gets[g] == Joined(key, pin) && key in s'.flights
                  && (key in s.flights ==> s'.flights == s.flights)
                  && (key !in s.flights ==> s'.flights == s.flights[key := Opening(pin)]))
  {
    hide Lower;
  }

  /** So from the end of a fetch on, every Get that pins its digest, in whatever case, is answered at once. */
  lemma CachedAnswersAtOnce(
    hash: Bytes -> string, events: seq<Event>, more: seq<Event>, d: string, g: nat)
    requires forall b :: DigestName(hash(b))
    requires DigestName(d) && d in Run(hash, START, events).files
    requires var s := Run(hash, START, events + more); g in s.gets && s.gets[g].Asking? && Lower(s.gets[g].pin) == d
    ensures var s := Run(hash, START, events + more);
            var s' := Step(hash, s, Look(g));
            s'.gets[g] == Done(s.gets[g].pin, Found(Entry(d, d))) && s'.flights == s.flights && s'.files == s.files
  {
    hide Run, Step, Lower;
    CachedStays(hash, events, more, d);
    LookExactly(hash, Run(hash, START, events + more), g);
    assert Lower("") == "" by { LowerOfNothing(); }
  }

  lemma LowerOfNothing()
    ensures Lower("") == ""
  {
  }
}
