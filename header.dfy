/** The validated header-map builder (src/client/header.rs). */
module Header {
  import opened Wire

  /**
   * A character a header value may hold: horizontal tab, or any character
   * from space upward except DEL. Characters outside ASCII are encoded as
   * bytes of 0x80 and above, which are accepted as opaque octets
   * (obs-text in the field-value syntax of section 5.5 of RFC 9110).
   */
  predicate ValidHeaderChar(c: char)
  {
    c as int == 9 || (32 <= c as int && c as int != 127)
  }

  predicate ValidHeaderValue(s: string)
  {
    forall i :: 0 <= i < |s| ==> ValidHeaderChar(s[i])
  }

  /** The "Bearer " prefix is harmless: the authorization value is valid exactly when the token is. */
  lemma BearerValid(token: string)
    ensures ValidHeaderValue(BearerValue(token)) <==> ValidHeaderValue(token)
  {
  }

  /** The content type is a constant every check accepts. */
  lemma ContentTypeValid()
    ensures ValidHeaderValue(MsgpackContentType)
  {
  }

  class HeaderBuilder {
    var headers: map<string, string>

    /** `Header::builder()`: no headers yet. */
    constructor Builder()
      ensures headers == map[]
    {
      headers := map[];
    }

    /**
     * Validates `value` first; an invalid value fails and changes nothing.
     * A valid one sets `key`, replacing any earlier value, and leaves every
     * other key as it was.
     */
    method Insert(key: string, value: string) returns (ok: bool)
      modifies this
      ensures ok <==> ValidHeaderValue(value)
      ensures !ok ==> headers == old(headers)
      ensures ok ==> headers.Keys == old(headers).Keys + {key} && headers[key] == value
      ensures forall k :: k != key && k in old(headers) ==> k in headers && headers[k] == old(headers)[k]
    {
      if !ValidHeaderValue(value) {
        return false;
      }
      headers := headers[key := value];
      return true;
    }

    /** `build()`: the accumulated map itself. */
    method Build() returns (m: map<string, string>)
      ensures m == headers
    {
      m := headers;
    }
  }
}
