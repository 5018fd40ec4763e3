/** `src/media.rs`: the stateless token that authorises one media path. The keyed MAC is an arbitrary
    function; nothing here is a claim about its strength. */
module MediaTokens {
  import opened Wrappers
  import opened Text
  import opened Encodings

  type Mac = (Bytes, Bytes) -> Bytes

  const MEDIA_PREFIX := "statics/media/"

  ghost predicate PathAllowed(path: string) {
    && MEDIA_PREFIX <= path
    && !(exists i :: OccursAt("..", path, i))
    && '%' !in path
  }

  function Sign(mac: Mac, key: Bytes, path: string): string {
    Base64(Utf8(path)) + "." + Hex(mac(key, Utf8(path)))
  }

  ghost function Verify(mac: Mac, key: Bytes, token: string): Option<string> {
    var cut := SplitOnce(token, '.');
    if cut.None? then None
    else
      var signature, encoded := Unhex(cut.value.1), Unbase64(cut.value.0);
      if signature.None? || encoded.None? then None
      else
        var path := FromUtf8(encoded.value);
        if path.None? || mac(key, Utf8(path.value)) != signature.value then None
        else if PathAllowed(path.value) then path else None
  }

  /** The base64url form of the path, a dot, and a hexadecimal spelling (in either letter case) of
      its MAC under the key. */
  ghost predicate Authorises(mac: Mac, key: Bytes, token: string, path: string) {
    exists tag :: token == Base64(Utf8(path)) + "." + tag && Unhex(tag) == Some(mac(key, Utf8(path)))
  }

  lemma AuthorisedVerifies(mac: Mac, key: Bytes, path: string, tag: string)
    requires Unhex(tag) == Some(mac(key, Utf8(path)))
    ensures Verify(mac, key, Base64(Utf8(path)) + "." + tag) == if PathAllowed(path) then Some(path) else None
  {
    Base64IsUrlSafe(Utf8(path));
    SplitOnceCuts(Base64(Utf8(path)), '.', tag);
    Unbase64OfBase64(Utf8(path));
    FromUtf8OfUtf8(path);
  }

  lemma VerifiedIsAuthorised(mac: Mac, key: Bytes, token: string)
    requires Verify(mac, key, token).Some?
    ensures var path := Verify(mac, key, token).value; PathAllowed(path) && Authorises(mac, key, token, path)
  {
    var path := Verify(mac, key, token).value;
    var cut := SplitOnce(token, '.').value;
    var tag := cut.1;
    assert Utf8(path) == Unbase64(cut.0).value && Unhex(tag) == Some(mac(key, Utf8(path)));
    DecodedForm(cut.0, Utf8(path));
    CutForm(token);
  }

  lemma DecodedForm(s: string, b: Bytes)
    requires Unbase64(s) == Some(b)
    ensures s == Base64(b)
  {
    Base64OfUnbase64(s);
  }

  lemma CutForm(token: string)
    requires SplitOnce(token, '.').Some?
    ensures token == SplitOnce(token, '.').value.0 + "." + SplitOnce(token, '.').value.1
  {
  }

  /** A signed path comes back exactly when it meets the path rules. */
  lemma SignedPathVerifies(mac: Mac, key: Bytes, path: string)
    ensures Verify(mac, key, Sign(mac, key, path)) == if PathAllowed(path) then Some(path) else None
  {
    UnhexOfHex(mac(key, Utf8(path)));
    AuthorisedVerifies(mac, key, path, Hex(mac(key, Utf8(path))));
  }

  /** No accepted path leaves the media directory: it starts there, never goes up, and hides nothing from a server that
      decodes it again. */
  lemma AcceptedPathsStayInside(mac: Mac, key: Bytes, token: string)
    requires Verify(mac, key, token).Some?
    ensures var path := Verify(mac, key, token).value;
            && |path| >= 14 && path[..14] == "statics/media/"
            && (forall i :: 0 <= i < |path| - 1 ==> path[i] != '.' || path[i + 1] != '.')
            && (forall i :: 0 <= i < |path| ==> path[i] != '%')
  {
    var path := Verify(mac, key, token).value;
    assert PathAllowed(path) by { VerifiedIsAuthorised(mac, key, token); }
    assert path[..14] == MEDIA_PREFIX;
    forall i | 0 <= i < |path| - 1 ensures path[i] != '.' || path[i + 1] != '.' {
      if path[i] == '.' && path[i + 1] == '.' {
        assert path[i..i + 2] == "..";
        assert OccursAt("..", path, i);
      }
    }
  }

  /** Nothing else is accepted. */
  lemma AcceptedTokensAreSigned(mac: Mac, key: Bytes, token: string, path: string)
    ensures Verify(mac, key, token) == Some(path) <==> PathAllowed(path) && Authorises(mac, key, token, path)
  {
    if Verify(mac, key, token).Some? {
      VerifiedIsAuthorised(mac, key, token);
    }
    if PathAllowed(path) && Authorises(mac, key, token, path) {
      var tag :| token == Base64(Utf8(path)) + "." + tag && Unhex(tag) == Some(mac(key, Utf8(path)));
      AuthorisedVerifies(mac, key, path, tag);
    }
  }
}
