/** The stored form of object keys, and the pairing of an incoming key with its final key. */
module ObjectKeys {
  import opened Wrappers

  const INCOMING_PREFIX := "incoming/"
  const ORIGINALS_PREFIX := "originals/"

  datatype KeyError = NotIncoming | NoIdentifier

  predicate StartsWith(s: string, prefix: string) {
    prefix <= s
  }

  function PermanentKeyForIncoming(incoming: string): (r: Result<string, KeyError>)
    ensures r.Ok? <==> StartsWith(incoming, INCOMING_PREFIX) && |incoming| > |INCOMING_PREFIX|
    ensures r.Ok? ==> StartsWith(r.value, ORIGINALS_PREFIX) && !StartsWith(r.value, INCOMING_PREFIX)
  {
    if !StartsWith(incoming, INCOMING_PREFIX) then Err(NotIncoming)
    else
      var identifier := incoming[|INCOMING_PREFIX|..];
      if identifier == "" then Err(NoIdentifier) else
        var key := ORIGINALS_PREFIX + identifier;
        assert key[0] == 'o' && INCOMING_PREFIX[0] == 'i';
        Ok(key)
  }

  /** Two uploads never share a final key, and no final key is an incoming key. */
  lemma PermanentKeysAreInjective(a: string, b: string)
    requires PermanentKeyForIncoming(a).Ok? && PermanentKeyForIncoming(a) == PermanentKeyForIncoming(b)
    ensures a == b
    ensures PermanentKeyForIncoming(PermanentKeyForIncoming(a).value).Err?
  {
    var key := PermanentKeyForIncoming(a).value;
    assert key[|ORIGINALS_PREFIX|..] == a[|INCOMING_PREFIX|..];
    assert key[|ORIGINALS_PREFIX|..] == b[|INCOMING_PREFIX|..];
    assert a == INCOMING_PREFIX + a[|INCOMING_PREFIX|..];
    assert b == INCOMING_PREFIX + b[|INCOMING_PREFIX|..];
  }
}
