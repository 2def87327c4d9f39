/** The bytes an app release and an agent release are signed over: each message determines its
    fields, and no message is of both kinds. */
module Signing {
  import opened Basics
  import opened Text
  import I = Identity

  /** A text as the bytes it is stored in. */
  type ByteText = s: string | forall i :: 0 <= i < |s| ==> s[i] < 256 as char

  type Digest = d: Bytes | |d| == 32 witness seq(32, _ => 0)

  const APP_DOMAIN: ByteText := "citadel-app-v1\0"
  const RELEASE_DOMAIN: ByteText := "citadel-agent-release-v1\0"

  datatype Refusal = BadIdentity(why: I.IdentityRefusal) | BadField(what: string)

  function BytesOf(s: ByteText): (b: Bytes)
    ensures |b| == |s|
  {
    seq(|s|, i requires 0 <= i < |s| => s[i] as int)
  }

  // ---------------------------------------------------------------- app releases

  function AppMessage(id: ByteText, version: ByteText, manifest: Digest, wasm: Digest): Bytes {
    BytesOf(APP_DOMAIN) + (BytesOf(id) + [0] + (BytesOf(version) + [0] + (manifest + wasm)))
  }

  function AppFault(id: ByteText, version: ByteText): Option<I.IdentityRefusal> {
    if I.AppIdFault(id).Some? then Some(I.AppId(I.AppIdFault(id).value))
    else if I.VersionOf(version).Err? then Some(I.Version(I.VersionOf(version).error))
    else None
  }

  method SignedAppMessage(id: ByteText, version: ByteText, manifest: Digest, wasm: Digest)
    returns (result: Result<Bytes, Refusal>)
    ensures result == if AppFault(id, version).Some? then Err(BadIdentity(AppFault(id, version).value))
                      else Ok(AppMessage(id, version, manifest, wasm))
  {
    var idOk := I.ValidateAppId(id);
    if idOk.Err? {
      return Err(BadIdentity(idOk.error));
    }
    var versionOk := I.ParseVersion(version);
    if versionOk.Err? {
      return Err(BadIdentity(versionOk.error));
    }
    var message := BytesOf(APP_DOMAIN);
    message := message + BytesOf(id);
    message := message + [0];
    message := message + BytesOf(version);
    message := message + [0];
    message := message + manifest;
    message := message + wasm;
    assert message == AppMessage(id, version, manifest, wasm);
    return Ok(message);
  }

  // ---------------------------------------------------------------- agent releases

  predicate FieldOk(value: ByteText) {
    value != "" && '\0' !in value
  }

  function ReleaseMessage(tag: ByteText, name: ByteText, digest: Digest): Bytes {
    BytesOf(RELEASE_DOMAIN) + (BytesOf(tag) + [0] + (BytesOf(name) + [0] + digest))
  }

  method SignedReleaseMessage(tag: ByteText, name: ByteText, digest: Digest) returns (result: Result<Bytes, Refusal>)
    ensures result == if !FieldOk(tag) then Err(BadField("tag"))
                      else if !FieldOk(name) then Err(BadField("asset name"))
                      else Ok(ReleaseMessage(tag, name, digest))
  {
    var fields: seq<(string, ByteText)> := [("tag", tag), ("asset name", name)];
    assert fields[0] == ("tag", tag) && fields[1] == ("asset name", name);
    for i := 0 to 2
      invariant forall j :: 0 <= j < i ==> FieldOk(fields[j].1)
    {
      if fields[i].1 == "" || '\0' in fields[i].1 {
        assert i == 0 || i == 1;
        return Err(BadField(fields[i].0));
      }
    }
    var message := BytesOf(RELEASE_DOMAIN);
    message := message + BytesOf(tag);
    message := message + [0];
    message := message + BytesOf(name);
    message := message + [0];
    message := message + digest;
    assert message == ReleaseMessage(tag, name, digest);
    return Ok(message);
  }

  // ---------------------------------------------------------------- messages determine their fields

  /** No byte of it is NUL. */
  ghost predicate NoNul(s: string) {
    forall i :: 0 <= i < |s| ==> s[i] != '\0'
  }

  lemma BytesInjective(a: ByteText, b: ByteText)
    requires BytesOf(a) == BytesOf(b)
    ensures a == b
  {
    forall i | 0 <= i < |a| ensures a[i] == b[i] {
      assert BytesOf(a)[i] == BytesOf(b)[i];
    }
  }

  /** Where the first NUL is. */
  function FirstNul(m: Bytes): nat {
    if m == [] || m[0] == 0 then 0 else 1 + FirstNul(m[1..])
  }

  lemma {:induction false} FirstNulAt(m: Bytes, n: nat)
    requires n < |m| && m[n] == 0 && forall i :: 0 <= i < n ==> m[i] != 0
    ensures FirstNul(m) == n
  {
    if n > 0 {
      FirstNulAt(m[1..], n - 1);
    }
  }

  lemma FieldEnds(a: ByteText, x: Bytes)
    requires NoNul(a)
    ensures var m := BytesOf(a) + [0] + x;
            FirstNul(m) == |a| && m[..|a|] == BytesOf(a) && m[|a| + 1..] == x
  {
    var m := BytesOf(a) + [0] + x;
    assert forall i :: 0 <= i < |a| ==> m[i] == BytesOf(a)[i];
    FirstNulAt(m, |a|);
  }

  /** A field ends at the first NUL, so it and what follows are determined. */
  lemma Delimited(a: ByteText, x: Bytes, b: ByteText, y: Bytes)
    requires NoNul(a) && NoNul(b) && BytesOf(a) + [0] + x == BytesOf(b) + [0] + y
    ensures a == b && x == y
  {
    hide BytesOf;
    FieldEnds(a, x);
    FieldEnds(b, y);
    BytesInjective(a, b);
  }

  lemma {:induction false} JoinNoNul(parts: seq<string>)
    requires parts != [] && forall i :: 0 <= i < |parts| ==> NoNul(parts[i])
    ensures NoNul(Join(parts, '.'))
  {
    if |parts| > 1 {
      JoinNoNul(parts[1..]);
    }
  }

  /** An accepted id and version hold no NUL. */
  lemma IdentityHasNoNul(id: ByteText, version: ByteText)
    requires AppFault(id, version).None?
    ensures NoNul(id) && NoNul(version)
  {
    hide I.LabelFault, I.LabelsFault, I.Matches, Split, Join, Decimal;
    I.LabelsPass(Split(id, '.'));
    forall i | 0 <= i < |Split(id, '.')| ensures NoNul(Split(id, '.')[i]) {
      I.LabelPasses(Split(id, '.')[i]);
    }
    JoinOfSplit(id, '.');
    JoinNoNul(Split(id, '.'));
    var v := I.VersionOf(version).value;
    I.VersionIsPrinted(version, v);
    DecimalIsCanonical(v.major);
    DecimalIsCanonical(v.minor);
    DecimalIsCanonical(v.patch);
    JoinNoNul([Decimal(v.major), Decimal(v.minor), Decimal(v.patch)]);
  }

  /** An app message is refused exactly for what its id or, the id being one, its version is refused for. */
  lemma RefusedForIdentity(id: ByteText, version: ByteText, why: I.IdentityRefusal)
    ensures AppFault(id, version) == Some(why) <==>
            if I.AppIdFault(id).Some? then why == I.AppId(I.AppIdFault(id).value)
            else I.VersionOf(version).Err? && why == I.Version(I.VersionOf(version).error)
  {
  }

  /** Where each field of an app message lies: the domain, id and version, the last two ended by NULs, and
      then the digests of the manifest and of the module. */
  lemma AppMessageLayout(id: ByteText, version: ByteText, manifest: Digest, wasm: Digest)
    ensures var m, v := AppMessage(id, version, manifest, wasm), 15 + |id| + 1;
            var w := v + |version| + 1;
            && |m| == w + 64
            && m[..15] == BytesOf("citadel-app-v1\0")
            && m[15..v - 1] == BytesOf(id) && m[v - 1] == 0
            && m[v..w - 1] == BytesOf(version) && m[w - 1] == 0
            && m[w..w + 32] == manifest && m[w + 32..] == wasm
  {
  }

  /** ... and of a release message: the domain, tag and asset name, and the digest. */
  lemma ReleaseMessageLayout(tag: ByteText, name: ByteText, digest: Digest)
    ensures var m, v := ReleaseMessage(tag, name, digest), 25 + |tag| + 1;
            var w := v + |name| + 1;
            && |m| == w + 32
            && m[..25] == BytesOf("citadel-agent-release-v1\0")
            && m[25..v - 1] == BytesOf(tag) && m[v - 1] == 0
            && m[v..w - 1] == BytesOf(name) && m[w - 1] == 0
            && m[w..] == digest
  {
  }

  /** Equal app messages are of the same id, version and digests. */
  lemma AppMessagesDetermine(id: ByteText, version: ByteText, manifest: Digest, wasm: Digest,
                             id': ByteText, version': ByteText, manifest': Digest, wasm': Digest)
    requires AppFault(id, version).None? && AppFault(id', version').None?
    requires AppMessage(id, version, manifest, wasm) == AppMessage(id', version', manifest', wasm')
    ensures id == id' && version == version' && manifest == manifest' && wasm == wasm'
  {
    hide AppFault, BytesOf;
    IdentityHasNoNul(id, version);
    IdentityHasNoNul(id', version');
    var d := BytesOf(APP_DOMAIN);
    var rest, rest' := BytesOf(version) + [0] + (manifest + wasm), BytesOf(version') + [0] + (manifest' + wasm');
    var m, m' := BytesOf(id) + [0] + rest, BytesOf(id') + [0] + rest';
    assert (d + m)[|d|..] == m && (d + m')[|d|..] == m';
    Delimited(id, rest, id', rest');
    Delimited(version, manifest + wasm, version', manifest' + wasm');
    assert (manifest + wasm)[..32] == manifest && (manifest' + wasm')[..32] == manifest';
    assert (manifest + wasm)[32..] == wasm && (manifest' + wasm')[32..] == wasm';
  }

  /** Equal release messages are of the same tag, asset name and digest. */
  lemma ReleaseMessagesDetermine(tag: ByteText, name: ByteText, digest: Digest, tag': ByteText, name': ByteText,
      digest': Digest)
    requires FieldOk(tag) && FieldOk(name) && FieldOk(tag') && FieldOk(name')
    requires ReleaseMessage(tag, name, digest) == ReleaseMessage(tag', name', digest')
    ensures tag == tag' && name == name' && digest == digest'
  {
    hide BytesOf;
    var d := BytesOf(RELEASE_DOMAIN);
    var rest, rest' := BytesOf(name) + [0] + digest, BytesOf(name') + [0] + digest';
    var m, m' := BytesOf(tag) + [0] + rest, BytesOf(tag') + [0] + rest';
    assert (d + m)[|d|..] == m && (d + m')[|d|..] == m';
    Delimited(tag, rest, tag', rest');
    Delimited(name, digest, name', digest');
  }

  /** No app message is a release message. */
  lemma DomainsDiffer(id: ByteText, version: ByteText, manifest: Digest, wasm: Digest, tag: ByteText,
      name: ByteText, digest: Digest)
    ensures AppMessage(id, version, manifest, wasm) != ReleaseMessage(tag, name, digest)
  {
    assert APP_DOMAIN[9] == 'p' && RELEASE_DOMAIN[9] == 'g';
    assert AppMessage(id, version, manifest, wasm)[9] == BytesOf(APP_DOMAIN)[9];
    assert ReleaseMessage(tag, name, digest)[9] == BytesOf(RELEASE_DOMAIN)[9];
  }
}
