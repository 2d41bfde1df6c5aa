/** MongoDB ObjectIds as the routes receive them: a string of 24 hexadecimal digits,
  * in either case, denotes the id whose canonical spelling is lower-case. */
module ObjectIds {
  import opened Common
  import opened Text

  /** `/^[0-9a-fA-F]{24}$/`. */
  predicate IsObjectIdHex(s: string) {
    |s| == 24 && forall i :: 0 <= i < |s| ==> IsHexDigit(s[i])
  }

  /** The canonical spelling of an ObjectId: 24 lower-case hex digits. */
  predicate IsStoredKey(k: string) {
    |k| == 24 && forall i :: 0 <= i < |k| ==> IsDigit(k[i]) || 'a' <= k[i] <= 'f'
  }

  /** `new ObjectId(id)`: the id a well-formed hex string denotes, in canonical spelling. */
  function Key(id: string): (k: string)
    requires IsObjectIdHex(id)
    ensures IsStoredKey(k)
  {
    var k := LowerAscii(id);
    assert forall i :: 0 <= i < 24 ==> k[i] == ToLower(id[i]);
    k
  }

  /** A canonical id passes the format check and denotes itself. */
  lemma KeyCanonical(k: string)
    requires IsStoredKey(k)
    ensures IsObjectIdHex(k) && Key(k) == k
  {
    assert forall i :: 0 <= i < 24 ==> LowerAscii(k)[i] == k[i];
  }

  /** `new ObjectId(id)`: the id denoted, or `None` where the constructor throws. */
  function Parse(id: string): (k: Option<string>)
    ensures k.Some? <==> IsObjectIdHex(id)
    ensures k.Some? ==> IsStoredKey(k.value)
  {
    if IsObjectIdHex(id) then Some(Key(id)) else None
  }

  /** The reply a handler's `catch` gives when `new ObjectId(id)` throws; the text
    * stands for the driver's own error message. */
  const InvalidId := ServerError("invalid ObjectId")
}
