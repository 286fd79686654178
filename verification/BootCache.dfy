/** Boot artifacts resolved once per source: bootArtifactsCacheKey and resolveCachedArtifacts. */
module BootCache {
  import opened Common
  import ImageCache

  type Bytes = ImageCache.Bytes

  datatype Https = Https(kernelURL: string, initramfsURL: string, kernelSHA256: string, initramfsSHA256: string)

  datatype Oci = Oci(reference: string, kernelTitle: string, initramfsTitle: string,
                     kernelSHA256: string, initramfsSHA256: string)

  datatype S3 = S3(endpoint: string, region: string, bucket: string, kernelKey: string, initramfsKey: string,
                   kernelSHA256: string, initramfsSHA256: string)

  /** The fields of a source that the key is made of. */
  datatype Source = Source(kind: string, https: Option<Https>, oci: Option<Oci>, s3: Option<S3>)

  // ----- The key text -----

  function HttpsLines(h: Https): seq<string> {
    ["https.kernel=" + h.kernelURL, "https.initramfs=" + h.initramfsURL,
     "https.kernel.sha256=" + h.kernelSHA256, "https.initramfs.sha256=" + h.initramfsSHA256]
  }

  function OciLines(o: Oci): seq<string> {
    ["oci.ref=" + o.reference, "oci.kernel.title=" + o.kernelTitle, "oci.initramfs.title=" + o.initramfsTitle,
     "oci.kernel.sha256=" + o.kernelSHA256, "oci.initramfs.sha256=" + o.initramfsSHA256]
  }

  function S3Lines(s: S3): seq<string> {
    ["s3.endpoint=" + s.endpoint, "s3.region=" + s.region, "s3.bucket=" + s.bucket,
     "s3.kernel=" + s.kernelKey, "s3.initramfs=" + s.initramfsKey,
     "s3.kernel.sha256=" + s.kernelSHA256, "s3.initramfs.sha256=" + s.initramfsSHA256]
  }

  function Lines(src: Source): seq<string> {
    ["type=" + src.kind]
    + (if src.https.Some? then HttpsLines(src.https.value) else [])
    + (if src.oci.Some? then OciLines(src.oci.value) else [])
    + (if src.s3.Some? then S3Lines(src.s3.value) else [])
  }

  function Text(lines: seq<string>): string {
    if lines == [] then "" else lines[0] + "\n" + Text(lines[1..])
  }

  /** The text that is hashed into the cache key. */
  function KeyText(src: Source): string { Text(Lines(src)) }

  /** The builder: one line after the other. */
  method WriteLines(lines: seq<string>) returns (b: string)
    ensures b == Text(lines)
  {
    b := "";
    for i := 0 to |lines|
      invariant Text(lines) == b + Text(lines[i..])
    {
      assert lines[i..][1..] == lines[i + 1..];
      b := b + lines[i] + "\n";
    }
  }

  predicate OneLine(s: string) { '\n' !in s }

  ghost predicate HttpsClean(h: Https) {
    OneLine(h.kernelURL) && OneLine(h.initramfsURL) && OneLine(h.kernelSHA256) && OneLine(h.initramfsSHA256)
  }

  ghost predicate OciClean(o: Oci) {
    OneLine(o.reference) && OneLine(o.kernelTitle) && OneLine(o.initramfsTitle) && OneLine(o.kernelSHA256)
        && OneLine(o.initramfsSHA256)
  }

  ghost predicate S3Clean(s: S3) {
    && OneLine(s.endpoint) && OneLine(s.region) && OneLine(s.bucket) && OneLine(s.kernelKey) && OneLine(s.initramfsKey)
    && OneLine(s.kernelSHA256) && OneLine(s.initramfsSHA256)
  }

  /** No written field contains a newline. */
  ghost predicate Clean(src: Source) {
    && OneLine(src.kind)
    && (src.https.Some? ==> HttpsClean(src.https.value))
    && (src.oci.Some? ==> OciClean(src.oci.value))
    && (src.s3.Some? ==> S3Clean(src.s3.value))
  }

  ghost predicate AllOneLine(lines: seq<string>) { forall i | 0 <= i < |lines| :: OneLine(lines[i]) }

  /** A line ends at the first newline, so the first lines of equal texts are equal. */
  lemma FirstLineFixed(a: string, s: string, b: string, t: string)
    requires OneLine(a) && OneLine(b) && a + "\n" + s == b + "\n" + t
    ensures a == b && s == t
  {
    var text := a + "\n" + s;
    assert text[|a|] == '\n' && text[|b|] == '\n';
    assert forall i | 0 <= i < |a| :: text[i] == a[i];
    assert forall i | 0 <= i < |b| :: text[i] == b[i];
    assert |a| == |b|;
    assert text[..|a|] == a && text[..|b|] == b && text[|a| + 1..] == s && text[|b| + 1..] == t;
  }

  lemma {:induction false} TextIsInjective(a: seq<string>, b: seq<string>)
    requires AllOneLine(a) && AllOneLine(b) && Text(a) == Text(b)
    ensures a == b
  {
    if a != [] && b != [] {
      FirstLineFixed(a[0], Text(a[1..]), b[0], Text(b[1..]));
      TextIsInjective(a[1..], b[1..]);
      assert a == [a[0]] + a[1..] && b == [b[0]] + b[1..];
    }
  }

  lemma SamePrefixSameValue(prefix: string, a: string, b: string)
    requires prefix + a == prefix + b
    ensures a == b
  {
    assert (prefix + a)[|prefix|..] == a && (prefix + b)[|prefix|..] == b;
  }

  lemma HttpsLinesInjective(a: Https, b: Https)
    requires HttpsLines(a) == HttpsLines(b)
    ensures a == b
  {
    var l, r := HttpsLines(a), HttpsLines(b);
    assert l[0] == r[0] && l[1] == r[1] && l[2] == r[2] && l[3] == r[3];
    SamePrefixSameValue("https.kernel=", a.kernelURL, b.kernelURL);
    SamePrefixSameValue("https.initramfs=", a.initramfsURL, b.initramfsURL);
    SamePrefixSameValue("https.kernel.sha256=", a.kernelSHA256, b.kernelSHA256);
    SamePrefixSameValue("https.initramfs.sha256=", a.initramfsSHA256, b.initramfsSHA256);
  }

  lemma OciLinesInjective(a: Oci, b: Oci)
    requires OciLines(a) == OciLines(b)
    ensures a == b
  {
    var l, r := OciLines(a), OciLines(b);
    assert l[0] == r[0] && l[1] == r[1] && l[2] == r[2] && l[3] == r[3] && l[4] == r[4];
    SamePrefixSameValue("oci.ref=", a.reference, b.reference);
    SamePrefixSameValue("oci.kernel.title=", a.kernelTitle, b.kernelTitle);
    SamePrefixSameValue("oci.initramfs.title=", a.initramfsTitle, b.initramfsTitle);
    SamePrefixSameValue("oci.kernel.sha256=", a.kernelSHA256, b.kernelSHA256);
    SamePrefixSameValue("oci.initramfs.sha256=", a.initramfsSHA256, b.initramfsSHA256);
  }

  lemma S3LinesInjective(a: S3, b: S3)
    requires S3Lines(a) == S3Lines(b)
    ensures a == b
  {
    var l, r := S3Lines(a), S3Lines(b);
    assert l[0] == r[0] && l[1] == r[1] && l[2] == r[2] && l[3] == r[3] && l[4] == r[4] && l[5] == r[5] && l[6] == r[6];
    SamePrefixSameValue("s3.endpoint=", a.endpoint, b.endpoint);
    SamePrefixSameValue("s3.region=", a.region, b.region);
    SamePrefixSameValue("s3.bucket=", a.bucket, b.bucket);
    SamePrefixSameValue("s3.kernel=", a.kernelKey, b.kernelKey);
    SamePrefixSameValue("s3.initramfs=", a.initramfsKey, b.initramfsKey);
    SamePrefixSameValue("s3.kernel.sha256=", a.kernelSHA256, b.kernelSHA256);
    SamePrefixSameValue("s3.initramfs.sha256=", a.initramfsSHA256, b.initramfsSHA256);
  }

  /** The number of lines tells which transports are present: 4, 5 and 7 have distinct sums. */
  lemma PresenceFixed(a: Source, b: Source)
    requires |Lines(a)| == |Lines(b)|
    ensures a.https.Some? == b.https.Some? && a.oci.Some? == b.oci.Some? && a.s3.Some? == b.s3.Some?
  {
  }

  lemma LinesInjective(a: Source, b: Source)
    requires Lines(a) == Lines(b)
    ensures a == b
  {
    hide HttpsLines, OciLines, S3Lines;
    PresenceFixed(a, b);
    LineCounts();
    var l := Lines(a);
    SamePrefixSameValue("type=", a.kind, b.kind) by { assert l[0] == "type=" + a.kind && l[0] == "type=" + b.kind; }
    var n := if a.https.Some? then 5 else 1;
    var k := if a.oci.Some? then n + 5 else n;
    if a.https.Some? {
      assert l[1..5] == HttpsLines(a.https.value) && l[1..5] == HttpsLines(b.https.value);
      HttpsLinesInjective(a.https.value, b.https.value);
    }
    if a.oci.Some? {
      assert l[n..n + 5] == OciLines(a.oci.value) && l[n..n + 5] == OciLines(b.oci.value);
      OciLinesInjective(a.oci.value, b.oci.value);
    }
    if a.s3.Some? {
      assert l[k..k + 7] == S3Lines(a.s3.value) && l[k..k + 7] == S3Lines(b.s3.value);
      S3LinesInjective(a.s3.value, b.s3.value);
    }
  }

  lemma LineCounts()
    ensures forall h :: |HttpsLines(h)| == 4
    ensures forall o :: |OciLines(o)| == 5
    ensures forall s :: |S3Lines(s)| == 7
  {
  }

  lemma LinesOfCleanHttps(h: Https)
    requires HttpsClean(h)
    ensures AllOneLine(HttpsLines(h))
  {
  }

  lemma LinesOfCleanOci(o: Oci)
    requires OciClean(o)
    ensures AllOneLine(OciLines(o))
  {
  }

  lemma LinesOfCleanS3(s: S3)
    requires S3Clean(s)
    ensures AllOneLine(S3Lines(s))
  {
  }

  lemma LinesOfCleanSource(src: Source)
    requires Clean(src)
    ensures AllOneLine(Lines(src))
  {
    hide HttpsClean, OciClean, S3Clean, HttpsLines, OciLines, S3Lines;
    assert OneLine("type=" + src.kind);
    if src.https.Some? { LinesOfCleanHttps(src.https.value); }
    if src.oci.Some? { LinesOfCleanOci(src.oci.value); }
    if src.s3.Some? { LinesOfCleanS3(src.s3.value); }
  }

  /** Equal key texts come from equal sources, when no field contains a newline. */
  lemma KeyTextIsInjective(a: Source, b: Source)
    requires Clean(a) && Clean(b) && KeyText(a) == KeyText(b)
    ensures a == b
  {
    LinesOfCleanSource(a);
    LinesOfCleanSource(b);
    TextIsInjective(Lines(a), Lines(b));
    LinesInjective(a, b);
  }

  function HttpsSource(kernelURL: string, initramfsURL: string, kernelPin: string, initramfsPin: string): Source {
    Source("HTTPS", Some(Https(kernelURL, initramfsURL, kernelPin, initramfsPin)), None, None)
  }

  /** The first two addresses of a text of lines, between their prefixes. */
  lemma {:induction false} TextOfThree(first: string, second: string, third: string, rest: seq<string>)
    ensures Text([first, second, third] + rest) == first + "\n" + (second + "\n" + (third + "\n" + Text(rest)))
  {
    var l := [first, second, third] + rest;
    var m, n := [second, third] + rest, [third] + rest;
    assert l[1..] == m && m[1..] == n && n[1..] == rest;
    assert Text(l) == first + "\n" + Text(m) && Text(m) == second + "\n" + Text(n)
        && Text(n) == third + "\n" + Text(rest);
  }

  /** A middle part that spells the line break and the second prefix can belong to either side. */
  lemma Slides(a: string, b: string, k: string, i: string, j: string, tail: string)
    ensures a + k + "\n" + (b + (i + ("\n" + b) + j) + "\n" + tail)
        == a + (k + ("\n" + b) + i) + "\n" + (b + j + "\n" + tail)
  {
    var whole := a + k + "\n" + b + i + "\n" + b + j + "\n" + tail;
    assert a + k + "\n" + (b + (i + ("\n" + b) + j) + "\n" + tail) == whole;
    assert a + (k + ("\n" + b) + i) + "\n" + (b + j + "\n" + tail) == whole;
  }

  function InitramfsPrefix(): string { "https.initramfs=" }

  /** A newline inside a field can imitate a line break: a middle part of the two addresses of an HTTPS
      source may be read as the end of the first or as the start of the second. */
  lemma NewlineCollides(k: string, i: string, j: string, kernelPin: string, initramfsPin: string)
    ensures var slip := "\n" + InitramfsPrefix();
            var a := HttpsSource(k, i + slip + j, kernelPin, initramfsPin);
            var b := HttpsSource(k + slip + i, j, kernelPin, initramfsPin);
            a != b && KeyText(a) == KeyText(b) && !Clean(a) && !Clean(b)
  {
    hide Text;
    var slip := "\n" + InitramfsPrefix();
    var pins := ["https.kernel.sha256=" + kernelPin, "https.initramfs.sha256=" + initramfsPin];
    HttpsShape(k, i + slip + j, kernelPin, initramfsPin);
    HttpsShape(k + slip + i, j, kernelPin, initramfsPin);
    Slides("https.kernel=", InitramfsPrefix(), k, i, j, Text(pins));
    assert (i + slip + j)[|i|] == '\n' && (k + slip + i)[|k|] == '\n';
    assert |k + slip + i| > |k|;
  }

  lemma HttpsShape(k: string, i: string, kernelPin: string, initramfsPin: string)
    ensures var pins := ["https.kernel.sha256=" + kernelPin, "https.initramfs.sha256=" + initramfsPin];
            KeyText(HttpsSource(k, i, kernelPin, initramfsPin)) ==
              "type=" + "HTTPS" + "\n" + ("https.kernel=" + k + "\n" + (InitramfsPrefix() + i + "\n" + Text(pins)))
  {
    hide Text;
    var pins := ["https.kernel.sha256=" + kernelPin, "https.initramfs.sha256=" + initramfsPin];
    assert Lines(HttpsSource(k, i, kernelPin, initramfsPin))
        == ["type=" + "HTTPS", "https.kernel=" + k, InitramfsPrefix() + i] + pins;
    TextOfThree("type=" + "HTTPS", "https.kernel=" + k, InitramfsPrefix() + i, pins);
  }

  // ----- The resolver -----

  datatype Artifacts = Artifacts(kernel: Bytes, kernelSHA256: string, initramfs: Bytes, initramfsSHA256: string)

  /** The pinned digests of the transport that the type names, if it is present. */
  function Pins(src: Source): Option<(string, string)> {
    if src.kind == "HTTPS" && src.https.Some? then Some((src.https.value.kernelSHA256, src.https.value.initramfsSHA256))
    else if src.kind == "OCI" && src.oci.Some? then Some((src.oci.value.kernelSHA256, src.oci.value.initramfsSHA256))
    else if src.kind == "S3" && src.s3.Some? then Some((src.s3.value.kernelSHA256, src.s3.value.initramfsSHA256))
    else None
  }

  predicate PinMatches(digest: string, pin: string) { pin == "" || ImageCache.Lower(digest) == ImageCache.Lower(pin) }

  /** What one resolution returns when the transport delivered `got`. */
  function Resolve(hash: Bytes -> string, src: Source, got: Option<(Bytes, Bytes)>): Option<Artifacts> {
    if Pins(src).None? || got.None? then None
    else
      var (kernelPin, initramfsPin) := Pins(src).value;
      var (kernel, initramfs) := got.value;
      if PinMatches(hash(kernel), kernelPin) && PinMatches(hash(initramfs), initramfsPin)
      then Some(Artifacts(kernel, hash(kernel), initramfs, hash(initramfs)))
      else None
  }

  /** The artifacts carry their own digests and answer to the pins of `src`. */
  ghost predicate AnswersTo(hash: Bytes -> string, src: Source, a: Artifacts) {
    && Pins(src).Some?
    && a.kernelSHA256 == hash(a.kernel) && a.initramfsSHA256 == hash(a.initramfs)
    && PinMatches(hash(a.kernel), Pins(src).value.0)
    && PinMatches(hash(a.initramfs), Pins(src).value.1)
  }

  // ----- Reconcilers sharing the cache -----

  /** A resolution: before its lookup, after a miss, after a fetch, or returned. */
  datatype Request =
    | Asked(source: Source)
    | Missed(source: Source)
    | Fetched(source: Source, artifacts: Artifacts)
    | Returned(source: Source, answer: Option<Artifacts>)

  datatype State = State(cache: map<string, Artifacts>, requests: map<nat, Request>)

  datatype Event =
    | Ask(id: nat, src: Source)
    | Load(id: nat)
    | Fetch(id: nat, got: Option<(Bytes, Bytes)>)
    | Store(id: nat)

  function Next(digest: string -> string, hash: Bytes -> string, s: State, id: nat, e: Event): State
    requires id in s.requests
  {
    var q := s.requests[id];
    if q.Asked? && e.Load? then
      var key := digest(KeyText(q.source));
      s.(requests := s.requests[id := if key in s.cache then Returned(q.source, Some(s.cache[key]))
          else Missed(q.source)])
    else if q.Missed? && e.Fetch? then
      var a := Resolve(hash, q.source, e.got);
      s.(requests := s.requests[id := if a.Some? then Fetched(q.source, a.value) else Returned(q.source, None)])
    else if q.Fetched? && e.Store? then
      State(s.cache[digest(KeyText(q.source)) := q.artifacts], s.requests[id := Returned(q.source, Some(q.artifacts))])
    else s
  }

  function Step(digest: string -> string, hash: Bytes -> string, s: State, e: Event): State {
    if e.Ask? then if e.id in s.requests then s else s.(requests := s.requests[e.id := Asked(e.src)])
    else if e.id in s.requests then Next(digest, hash, s, e.id, e)
    else s
  }

  function Run(digest: string -> string, hash: Bytes -> string, events: seq<Event>): State {
    if events == [] then State(map[], map[])
    else Step(digest, hash, Run(digest, hash, events[..|events| - 1]), events[|events| - 1])
  }

  ghost predicate CleanEvents(events: seq<Event>) {
    forall i | 0 <= i < |events| && events[i].Ask? :: Clean(events[i].src)
  }

  ghost predicate Injective(digest: string -> string) {
    forall a, b | digest(a) == digest(b) :: a == b
  }

  ghost predicate Filed(digest: string -> string, hash: Bytes -> string, key: string, a: Artifacts) {
    exists src :: Clean(src) && digest(KeyText(src)) == key && AnswersTo(hash, src, a)
  }

  ghost predicate RequestSound(hash: Bytes -> string, q: Request) {
    && Clean(q.source)
    && (q.Fetched? ==> AnswersTo(hash, q.source, q.artifacts))
    && (q.Returned? && q.answer.Some? ==> AnswersTo(hash, q.source, q.answer.value))
  }

  ghost predicate Sound(digest: string -> string, hash: Bytes -> string, s: State) {
    && (forall key | key in s.cache :: Filed(digest, hash, key, s.cache[key]))
    && (forall id | id in s.requests :: RequestSound(hash, s.requests[id]))
  }

  lemma ResolvedAnswers(hash: Bytes -> string, src: Source, got: Option<(Bytes, Bytes)>)
    ensures Resolve(hash, src, got).Some? ==> AnswersTo(hash, src, Resolve(hash, src, got).value)
  {
  }

  /** The digests pinned for kernel and initramfs by a transport. */
  predicate Pinned(src: Source, kernelPin: string, initramfsPin: string) {
    || (src.kind == "HTTPS" && src.https.Some?
        && src.https.value.kernelSHA256 == kernelPin && src.https.value.initramfsSHA256 == initramfsPin)
    || (src.kind == "OCI" && src.oci.Some?
        && src.oci.value.kernelSHA256 == kernelPin && src.oci.value.initramfsSHA256 == initramfsPin)
    || (src.kind == "S3" && src.s3.Some?
        && src.s3.value.kernelSHA256 == kernelPin && src.s3.value.initramfsSHA256 == initramfsPin)
  }

  /** What a resolution comes to, exactly: the two delivered texts, each with its own digest, if and only if
      the source has the transport its type names and each text has the digest pinned for it there, up to
      case, or none is pinned. */
  lemma ResolvedExactly(hash: Bytes -> string, src: Source, kernel: Bytes, initramfs: Bytes)
    ensures var a := Resolve(hash, src, Some((kernel, initramfs)));
            && (a.Some? ==> a.value == Artifacts(kernel, hash(kernel), initramfs, hash(initramfs)))
            && (a.Some? <==> exists k, i ::
                  && Pinned(src, k, i)
                  && (k == "" || ImageCache.Lower(hash(kernel)) == ImageCache.Lower(k))
                  && (i == "" || ImageCache.Lower(hash(initramfs)) == ImageCache.Lower(i)))
    ensures Resolve(hash, src, None).None?
  {
    if Pins(src).Some? {
      assert Pinned(src, Pins(src).value.0, Pins(src).value.1);
    }
  }

  /** These artifacts were delivered by some fetch of the run. */
  ghost predicate Delivered(events: seq<Event>, a: Artifacts) {
    exists i :: 0 <= i < |events| && events[i].Fetch? && events[i].got == Some((a.kernel, a.initramfs))
  }

  ghost predicate AllDelivered(events: seq<Event>, s: State) {
    && (forall key | key in s.cache :: Delivered(events, s.cache[key]))
    && (forall id | id in s.requests && s.requests[id].Fetched? :: Delivered(events, s.requests[id].artifacts))
    && (forall id | id in s.requests && s.requests[id].Returned? && s.requests[id].answer.Some? ::
          Delivered(events, s.requests[id].answer.value))
  }

  lemma DeliveredStill(events: seq<Event>, e: Event, s: State)
    requires AllDelivered(events, s)
    ensures AllDelivered(events + [e], s)
  {
    forall a | Delivered(events, a)
      ensures Delivered(events + [e], a)
    {
      var i :| 0 <= i < |events| && events[i].Fetch? && events[i].got == Some((a.kernel, a.initramfs));
      assert (events + [e])[i] == events[i];
    }
  }

  /** Whatever the interleaving: kernel and initramfs that a request returns are the kernel and the initramfs
      of one delivery. */
  lemma {:induction false} ReturnedWasDelivered(digest: string -> string, hash: Bytes -> string, events: seq<Event>)
    ensures AllDelivered(events, Run(digest, hash, events))
  {
    hide KeyText, Resolve, Delivered;
    if events != [] {
      var n := |events| - 1;
      var front, e := events[..n], events[n];
      assert events == front + [e];
      ReturnedWasDelivered(digest, hash, front);
      var s := Run(digest, hash, front);
      DeliveredStill(front, e, s);
      if e.Fetch? && e.got.Some? && e.id in s.requests {
        ResolvedExactly(hash, s.requests[e.id].source, e.got.value.0, e.got.value.1);
        FetchDelivers(events);
      } else if e.Fetch? && e.id in s.requests {
        ResolvedExactly(hash, s.requests[e.id].source, "", "");
      }
    }
  }

  lemma FetchDelivers(events: seq<Event>)
    requires events != [] && events[|events| - 1].Fetch?
    ensures forall a: Artifacts | events[|events| - 1].got == Some((a.kernel, a.initramfs)) :: Delivered(events, a)
  {
  }

  lemma FiledAnswers(digest: string -> string, hash: Bytes -> string, src: Source, a: Artifacts)
    requires Injective(digest) && Clean(src) && Filed(digest, hash, digest(KeyText(src)), a)
    ensures AnswersTo(hash, src, a)
  {
    var other :| Clean(other) && digest(KeyText(other)) == digest(KeyText(src)) && AnswersTo(hash, other, a);
    assert KeyText(other) == KeyText(src);
    KeyTextIsInjective(other, src);
  }

  lemma NextIsSound(digest: string -> string, hash: Bytes -> string, s: State, id: nat, e: Event)
    requires Injective(digest) && Sound(digest, hash, s) && id in s.requests
    ensures Sound(digest, hash, Next(digest, hash, s, id, e))
  {
    hide Clean, AnswersTo, Resolve, KeyText, Injective;
    var q := s.requests[id];
    var key := digest(KeyText(q.source));
    assert RequestSound(hash, q);
    if q.Asked? && e.Load? && key in s.cache {
      FiledAnswers(digest, hash, q.source, s.cache[key]);
    } else if q.Missed? && e.Fetch? {
      ResolvedAnswers(hash, q.source, e.got);
    } else if q.Fetched? && e.Store? {
      assert Filed(digest, hash, key, q.artifacts);
    }
  }

  lemma {:induction false} RunIsSound(digest: string -> string, hash: Bytes -> string, events: seq<Event>)
    requires Injective(digest) && CleanEvents(events)
    ensures Sound(digest, hash, Run(digest, hash, events))
  {
    hide Clean, AnswersTo, Injective, Next;
    if events != [] {
      var before, e := Run(digest, hash, events[..|events| - 1]), events[|events| - 1];
      RunIsSound(digest, hash, events[..|events| - 1]);
      if !e.Ask? && e.id in before.requests { NextIsSound(digest, hash, before, e.id, e); }
    }
  }

  /** Whatever the interleaving and whatever the network delivers: artifacts returned for a source,
      cached or fetched, carry their true digests and match that source's pins. */
  lemma ReturnedArtifactsMatchPins(digest: string -> string, hash: Bytes -> string, events: seq<Event>, id: nat)
    requires Injective(digest) && CleanEvents(events)
    requires var s := Run(digest, hash, events);
             id in s.requests && s.requests[id].Returned? && s.requests[id].answer.Some?
    ensures var q := Run(digest, hash, events).requests[id]; AnswersTo(hash, q.source, q.answer.value)
  {
    hide Clean, AnswersTo, Injective, Step;
    RunIsSound(digest, hash, events);
    assert RequestSound(hash, Run(digest, hash, events).requests[id]);
  }

  lemma CacheGrows(digest: string -> string, hash: Bytes -> string, s: State, e: Event)
    ensures s.cache.Keys <= Step(digest, hash, s, e).cache.Keys
  {
    hide KeyText, Resolve;
  }

  lemma {:induction false} CachedStays(
    digest: string -> string, hash: Bytes -> string, events: seq<Event>, more: seq<Event>, key: string)
    requires key in Run(digest, hash, events).cache
    ensures key in Run(digest, hash, events + more).cache
  {
    hide Step;
    if more == [] {
      assert events + more == events;
    } else {
      var n := |more| - 1;
      assert (events + more)[..|events| + n] == events + more[..n] && (events + more)[|events| + n] == more[n];
      CachedStays(digest, hash, events, more[..n], key);
      CacheGrows(digest, hash, Run(digest, hash, events + more[..n]), more[n]);
    }
  }

  /** One resolution serves all later ones.  When a request that missed gets a delivery that meets the pins,
      it returns it and stores it under the key of its source; from then on every request whose source has
      that key is answered from the cache, at once. */
  lemma StoredOnceServesAll(
    digest: string -> string, hash: Bytes -> string, events: seq<Event>, id: nat, got: (Bytes, Bytes),
    more: seq<Event>, other: nat)
    requires var s := Run(digest, hash, events);
             && id in s.requests && s.requests[id].Missed?
             && Resolve(hash, s.requests[id].source, Some(got)).Some?
    requires var s, t := Run(digest, hash, events),
                         Run(digest, hash, events + [Fetch(id, Some(got)), Store(id)] + more);
             && other in t.requests && t.requests[other].Asked?
             && KeyText(t.requests[other].source) == KeyText(s.requests[id].source)
    ensures var s, s' := Run(digest, hash, events), Run(digest, hash, events + [Fetch(id, Some(got)), Store(id)]);
            var a := Artifacts(got.0, hash(got.0), got.1, hash(got.1));
            id in s'.requests && s'.requests[id] == Returned(s.requests[id].source, Some(a))
    ensures var t := Run(digest, hash, events + [Fetch(id, Some(got)), Store(id)] + more);
            var key := digest(KeyText(t.requests[other].source));
            && key in t.cache
            && Step(digest, hash, t, Load(other)).requests[other]
                == Returned(t.requests[other].source, Some(t.cache[key]))
  {
    hide Run, KeyText, Resolve;
    var s := Run(digest, hash, events);
    var src := s.requests[id].source;
    ResolvedExactly(hash, src, got.0, got.1);
    RunOnTwo(digest, hash, events, Fetch(id, Some(got)), Store(id));
    var s1 := Step(digest, hash, s, Fetch(id, Some(got)));
    assert s1.requests[id] == Fetched(src, Artifacts(got.0, hash(got.0), got.1, hash(got.1)));
    CachedStays(digest, hash, events + [Fetch(id, Some(got)), Store(id)], more, digest(KeyText(src)));
  }

  lemma RunOnTwo(digest: string -> string, hash: Bytes -> string, events: seq<Event>, a: Event, b: Event)
    ensures Run(digest, hash, events + [a, b])
        == Step(digest, hash, Step(digest, hash, Run(digest, hash, events), a), b)
  {
    hide Step;
    assert (events + [a, b])[..|events| + 1] == events + [a] && (events + [a])[..|events|] == events;
    assert Run(digest, hash, events + [a]) == Step(digest, hash, Run(digest, hash, events), a);
  }

  /** A new request, whatever happened before, is answered from the cache if its key is there, and otherwise
      by a delivery that meets its pins. */
  lemma UndisturbedResolves(
    digest: string -> string, hash: Bytes -> string, events: seq<Event>, id: nat, src: Source, got: (Bytes, Bytes))
    requires id !in Run(digest, hash, events).requests
    ensures var s, key := Run(digest, hash, events), digest(KeyText(src));
            var a := Artifacts(got.0, hash(got.0), got.1, hash(got.1));
            var looked := Run(digest, hash, events + [Ask(id, src), Load(id)]);
            var served := Run(digest, hash, events + [Ask(id, src), Load(id)] + [Fetch(id, Some(got)), Store(id)]);
            && id in looked.requests && id in served.requests
            && (key in s.cache ==> looked.requests[id] == Returned(src, Some(s.cache[key])))
            && (key !in s.cache && Resolve(hash, src, Some(got)).Some? ==>
                  served.requests[id] == Returned(src, Some(a)) && served.cache == s.cache[key := a])
  {
    hide Run, KeyText, Resolve;
    var s := Run(digest, hash, events);
    ResolvedExactly(hash, src, got.0, got.1);
    RunOnTwo(digest, hash, events, Ask(id, src), Load(id));
    RunOnTwo(digest, hash, events + [Ask(id, src), Load(id)], Fetch(id, Some(got)), Store(id));
    var s1 := Step(digest, hash, s, Ask(id, src));
    assert s1 == s.(requests := s.requests[id := Asked(src)]);
  }

  // ----- The cache in place -----

  ghost predicate AllFiled(digest: string -> string, hash: Bytes -> string, entries: map<string, Artifacts>) {
    forall key | key in entries :: Filed(digest, hash, key, entries[key])
  }

  /** The reconciler's artifact cache; `resolveCachedArtifacts` without a concurrent caller. */
  class ArtifactCache {
    var entries: map<string, Artifacts>

    constructor ()
      ensures entries == map[]
    {
      entries := map[];
    }

    /** A hit returns the entry and fetches nothing; a miss stores what it resolved, and an error
        stores nothing. */
    method ResolveCached(digest: string -> string, hash: Bytes -> string, src: Source, got: Option<(Bytes, Bytes)>)
      returns (answer: Option<Artifacts>)
      modifies this
      ensures var key := digest(KeyText(src));
        && (key in old(entries) ==> answer == Some(old(entries)[key]) && entries == old(entries))
        && (key !in old(entries) ==> answer == Resolve(hash, src, got))
        && (answer.Some? ==> entries == old(entries)[key := answer.value])
        && (answer.None? ==> entries == old(entries))
      ensures Injective(digest) && Clean(src) && AllFiled(digest, hash, old(entries)) ==>
                (answer.Some? ==> AnswersTo(hash, src, answer.value)) && AllFiled(digest, hash, entries)
    {
      hide Clean, AnswersTo, Resolve, Injective;
      var text := WriteLines(Lines(src));
      var key := digest(text);
      if key in entries {
        answer := Some(entries[key]);
        assert entries[key := entries[key]] == entries;
        if Injective(digest) && Clean(src) && Filed(digest, hash, key, entries[key]) {
          FiledAnswers(digest, hash, src, entries[key]);
        }
        return;
      }
      answer := Resolve(hash, src, got);
      ResolvedAnswers(hash, src, got);
      if answer.Some? { entries := entries[key := answer.value]; }
    }
  }
}
