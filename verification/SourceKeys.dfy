/** The key that coalesces concurrent fetches of a base image (sourceKey of internal/imagecache/cache.go),
    and exactly which sources share it. */
module SourceKeys {
  import opened Common

  datatype Oci = Oci(reference: string, blobTitle: string)

  datatype S3 = S3(endpoint: string, bucket: string, key: string)

  datatype Source = Source(kind: string, https: Option<string>, oci: Option<Oci>, s3: Option<S3>)

  function Joined(a: string, sep: char, b: string): string { a + [sep] + b }

  function SourceKey(src: Source): string {
    src.kind + "|"
    + (if src.https.Some? then src.https.value else "")
    + (if src.oci.Some? then Joined(src.oci.value.reference, '|', src.oci.value.blobTitle) else "")
    + (if src.s3.Some? then Joined(src.s3.value.endpoint, '/',
        Joined(src.s3.value.bucket, '/', src.s3.value.key)) else "")
  }

  // ----- Two texts joined by a separator -----

  /** The second pair cuts the same text later: its first part goes on over a separator. */
  ghost predicate CutLater(a: string, b: string, a': string, b': string, sep: char) {
    exists x :: a' == Joined(a, sep, x) && b == Joined(x, sep, b')
  }

  lemma LongerCut(a: string, b: string, a': string, b': string, sep: char)
    requires |a| < |a'|
    ensures Joined(a, sep, b) == Joined(a', sep, b') <==> CutLater(a, b, a', b', sep)
  {
    if CutLater(a, b, a', b', sep) {
      var x :| a' == Joined(a, sep, x) && b == Joined(x, sep, b');
      assert a + [sep] + (x + [sep] + b') == (a + [sep] + x) + [sep] + b';
    }
    if Joined(a, sep, b) == Joined(a', sep, b') {
      var k, x := Joined(a', sep, b'), a'[|a| + 1..];
      assert k[..|a|] == a && k[..|a|] == a'[..|a|] && k[|a|] == sep && k[|a|] == a'[|a|];
      assert k[|a| + 1..] == b && k[|a| + 1..] == Joined(x, sep, b');
      assert a' == Joined(a, sep, x);
    }
  }

  lemma SameCut(a: string, b: string, a': string, b': string, sep: char)
    requires |a| == |a'| && Joined(a, sep, b) == Joined(a', sep, b')
    ensures a == a' && b == b'
  {
    var k := Joined(a, sep, b);
    assert k[..|a|] == a && k[..|a'|] == a' && k[|a| + 1..] == b && k[|a'| + 1..] == b';
  }

  ghost predicate SameOrRecut(a: string, b: string, a': string, b': string, sep: char) {
    (a == a' && b == b') || CutLater(a, b, a', b', sep) || CutLater(a', b', a, b, sep)
  }

  lemma JoinedExactly(a: string, b: string, a': string, b': string, sep: char)
    ensures Joined(a, sep, b) == Joined(a', sep, b') <==> SameOrRecut(a, b, a', b', sep)
  {
    if |a| < |a'| {
      LongerCut(a, b, a', b', sep);
      assert !CutLater(a', b', a, b, sep);
    } else if |a'| < |a| {
      LongerCut(a', b', a, b, sep);
      assert !CutLater(a, b, a', b', sep);
    } else {
      if Joined(a, sep, b) == Joined(a', sep, b') { SameCut(a, b, a', b', sep); }
      assert !CutLater(a, b, a', b', sep) && !CutLater(a', b', a, b, sep);
    }
  }

  /** A part that is cut later contains the separator. */
  lemma NoRecut(a: string, b: string, a': string, b': string, sep: char)
    ensures CutLater(a, b, a', b', sep) ==> sep in a'
  {
    if CutLater(a, b, a', b', sep) {
      var x :| a' == Joined(a, sep, x) && b == Joined(x, sep, b');
      assert a'[|a|] == sep;
    }
  }

  // ----- Sources -----

  /** What a source comes to in its key: the transport written last takes in the texts before it. */
  datatype Shape = Web(url: string) | Layer(oci: Oci) | Object(s3: S3)

  function Front(src: Source): string { if src.https.Some? then src.https.value else "" }

  function ShapeOf(src: Source): Shape {
    var u := Front(src);
    var o := if src.oci.Some? then Joined(u + src.oci.value.reference, '|', src.oci.value.blobTitle) else u;
    if src.s3.Some? then Object(src.s3.value.(endpoint := o + src.s3.value.endpoint))
    else if src.oci.Some? then Layer(src.oci.value.(reference := u + src.oci.value.reference))
    else Web(u)
  }

  function Text(shape: Shape): string {
    match shape
    case Web(u) => u
    case Layer(o) => Joined(o.reference, '|', o.blobTitle)
    case Object(s) => Joined(s.endpoint, '/', Joined(s.bucket, '/', s.key))
  }

  lemma Prepended(u: string, a: string, sep: char, b: string)
    ensures u + Joined(a, sep, b) == Joined(u + a, sep, b)
  {
  }

  lemma FourParts(kind: string, a: string, b: string, c: string)
    ensures kind + "|" + a + b + c == Joined(kind, '|', a + b + c)
  {
  }

  lemma NothingAdded(a: string)
    ensures a + "" == a
  {
  }

  lemma KeyIsKindAndShape(src: Source)
    ensures SourceKey(src) == Joined(src.kind, '|', Text(ShapeOf(src)))
  {
    hide Joined;
    var u := Front(src);
    var o := if src.oci.Some? then Joined(src.oci.value.reference, '|', src.oci.value.blobTitle) else "";
    var t := if src.s3.Some? then Joined(src.s3.value.endpoint, '/',
        Joined(src.s3.value.bucket, '/', src.s3.value.key)) else "";
    FourParts(src.kind, u, o, t);
    NothingAdded(u);
    NothingAdded(u + o);
    if src.oci.Some? {
      Prepended(u, src.oci.value.reference, '|', src.oci.value.blobTitle);
    }
    if src.s3.Some? {
      Prepended(u + o, src.s3.value.endpoint, '/', Joined(src.s3.value.bucket, '/', src.s3.value.key));
    }
  }

  /** The type is one of the three that the API server accepts. */
  predicate Admitted(src: Source) { src.kind in {"HTTPS", "OCI", "S3"} }

  lemma KindsHaveNoBar(src: Source)
    requires Admitted(src)
    ensures '|' !in src.kind
  {
  }

  lemma KeyFixesKind(a: Source, b: Source)
    requires Admitted(a) && Admitted(b)
    ensures SourceKey(a) == SourceKey(b) <==> a.kind == b.kind && Text(ShapeOf(a)) == Text(ShapeOf(b))
  {
    hide Text, ShapeOf, SourceKey, Joined, CutLater;
    KeyIsKindAndShape(a);
    KeyIsKindAndShape(b);
    KindsHaveNoBar(a);
    KindsHaveNoBar(b);
    var s, t := Text(ShapeOf(a)), Text(ShapeOf(b));
    JoinedExactly(a.kind, s, b.kind, t, '|');
    NoRecut(a.kind, s, b.kind, t, '|');
    NoRecut(b.kind, t, a.kind, s, '|');
  }

  ghost predicate SharesS3(s: S3, t: S3) {
    || (s.endpoint == t.endpoint && SameOrRecut(s.bucket, s.key, t.bucket, t.key, '/'))
    || CutLater(s.endpoint, Joined(s.bucket, '/', s.key), t.endpoint, Joined(t.bucket, '/', t.key), '/')
    || CutLater(t.endpoint, Joined(t.bucket, '/', t.key), s.endpoint, Joined(s.bucket, '/', s.key), '/')
  }

  ghost predicate SameText(a: Shape, b: Shape) {
    match (a, b)
    case (Web(u), Web(v)) => u == v
    case (Layer(s), Layer(t)) => SameOrRecut(s.reference, s.blobTitle, t.reference, t.blobTitle, '|')
    case (Object(s), Object(t)) => SharesS3(s, t)
    case _ => Text(a) == Text(b)
  }

  /** Which sources share a fetch, exactly: of one type, and for a URL the same one; for an OCI layer the
      same reference and title, or one text cut at different bars; for an S3 object the same one, or one
      text cut at different slashes between endpoint, bucket and key.  A transport beside the one that
      the type names counts as part of what follows it. */
  lemma SharedExactly(a: Source, b: Source)
    requires Admitted(a) && Admitted(b)
    ensures SourceKey(a) == SourceKey(b) <==> a.kind == b.kind && SameText(ShapeOf(a), ShapeOf(b))
  {
    hide SourceKey, Joined, CutLater, SameOrRecut, ShapeOf, SharesS3;
    KeyFixesKind(a, b);
    match (ShapeOf(a), ShapeOf(b))
    case (Layer(s), Layer(t)) => JoinedExactly(s.reference, s.blobTitle, t.reference, t.blobTitle, '|');
    case (Object(s), Object(t)) => S3Exactly(s, t);
    case _ =>
  }

  lemma S3Exactly(s: S3, t: S3)
    ensures var a, b := Joined(s.endpoint, '/', Joined(s.bucket, '/', s.key)),
                        Joined(t.endpoint, '/', Joined(t.bucket, '/', t.key));
            a == b <==> SharesS3(s, t)
  {
    hide Joined, CutLater;
    JoinedExactly(s.endpoint, Joined(s.bucket, '/', s.key), t.endpoint, Joined(t.bucket, '/', t.key), '/');
    JoinedExactly(s.bucket, s.key, t.bucket, t.key, '/');
  }

  /** The source has the transport that its type names, and no other. */
  predicate Proper(src: Source) {
    || (src.kind == "HTTPS" && src.https.Some? && src.oci.None? && src.s3.None?)
    || (src.kind == "OCI" && src.https.None? && src.oci.Some? && src.s3.None?)
    || (src.kind == "S3" && src.https.None? && src.oci.None? && src.s3.Some?)
  }

  lemma ProperShape(src: Source)
    requires Proper(src)
    ensures src.https.Some? ==> ShapeOf(src) == Web(src.https.value)
    ensures src.oci.Some? ==> ShapeOf(src) == Layer(src.oci.value)
    ensures src.s3.Some? ==> ShapeOf(src) == Object(src.s3.value)
  {
    assert src.oci.Some? ==> "" + src.oci.value.reference == src.oci.value.reference;
    assert src.s3.Some? ==> "" + src.s3.value.endpoint == src.s3.value.endpoint;
  }

  /** So names that transports can use are told apart: references without a bar, endpoints and buckets
      without a slash. */
  lemma UsualSourcesAreToldApart(a: Source, b: Source)
    requires Proper(a) && Proper(b) && SourceKey(a) == SourceKey(b)
    requires forall s | s in {a, b} ::
               && (s.oci.Some? ==> '|' !in s.oci.value.reference)
               && (s.s3.Some? ==> '/' !in s.s3.value.endpoint && '/' !in s.s3.value.bucket)
    ensures a == b
  {
    hide SourceKey, Joined, CutLater, ShapeOf;
    SharedExactly(a, b);
    ProperShape(a);
    ProperShape(b);
    if a.oci.Some? {
      var s, t := a.oci.value, b.oci.value;
      NoRecut(s.reference, s.blobTitle, t.reference, t.blobTitle, '|');
      NoRecut(t.reference, t.blobTitle, s.reference, s.blobTitle, '|');
    }
    if a.s3.Some? {
      var s, t := a.s3.value, b.s3.value;
      NoRecut(s.endpoint, Joined(s.bucket, '/', s.key), t.endpoint, Joined(t.bucket, '/', t.key), '/');
      NoRecut(t.endpoint, Joined(t.bucket, '/', t.key), s.endpoint, Joined(s.bucket, '/', s.key), '/');
      NoRecut(s.bucket, s.key, t.bucket, t.key, '/');
      NoRecut(t.bucket, t.key, s.bucket, s.key, '/');
    }
  }

  /** Others can share: two OCI sources, two S3 sources, and a source that also carries a transport its
      type does not name. */
  lemma SomeSourcesShare()
    ensures SourceKey(Source("OCI", None, Some(Oci("a|b", "c")), None))
        == SourceKey(Source("OCI", None, Some(Oci("a", "b|c")), None))
    ensures SourceKey(Source("S3", None, None, Some(S3("h", "a", "b/c"))))
        == SourceKey(Source("S3", None, None, Some(S3("h", "a/b", "c"))))
    ensures SourceKey(Source("OCI", Some("a"), Some(Oci("b", "c")), None))
        == SourceKey(Source("OCI", None, Some(Oci("ab", "c")), None))
  {
    assert "a|b" + "|" + "c" == "a" + "|" + "b|c";
    assert "h" + "/" + ("a" + "/" + "b/c") == "h" + "/" + ("a/b" + "/" + "c");
    assert "OCI" + "|" + "a" + ("b" + "|" + "c") == "OCI" + "|" + "" + ("ab" + "|" + "c");
  }
}
