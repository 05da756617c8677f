/** What a client can be promised, said in terms of what the other side wrote and of the libraries alone.
    The gateway's helpers are proved to keep exactly this. */
module Promise {
  import opened Wire

  /** The cookies that are not blank, trimmed, in order. */
  function Trimmed(lib: Lib, cookies: seq<string>): seq<string> {
    if cookies == [] then []
    else
      var n := |cookies| - 1;
      Trimmed(lib, cookies[..n]) + (if lib.trim(cookies[n]) == "" then [] else [lib.trim(cookies[n])])
  }

  /** One `set-cookie` field per cookie. */
  function SetCookies(cookies: seq<string>): Headers {
    seq(|cookies|, i requires 0 <= i < |cookies| => ("set-cookie", cookies[i]))
  }

  predicate FieldsPass(lib: Lib, headers: map<string, string>) {
    headers == map[] || lib.headerMap(headers).Some?
  }

  /** A three-digit status, legal header fields, and legal cookies. */
  predicate HeadPasses(lib: Lib, status: nat, headers: map<string, string>, cookies: seq<string>) {
    100 <= status <= 999 && FieldsPass(lib, headers) && forall c | c in Trimmed(lib, cookies) :: lib.cookieOk(c)
  }

  /** The header fields, followed by one `set-cookie` per cookie. */
  function HeaderFields(lib: Lib, headers: map<string, string>, cookies: seq<string>): Headers
    requires FieldsPass(lib, headers)
  {
    (if headers == map[] then [] else lib.headerMap(headers).value) + SetCookies(Trimmed(lib, cookies))
  }

  /** The bytes a body text stands for, if it decodes. */
  function TextBytes(lib: Lib, text: string, isBase64: bool): Option<Bytes> {
    if isBase64 then lib.base64(text) else Some(lib.utf8(text))
  }

  /** The response these parts make, if they can be passed on. */
  function Promised(lib: Lib, meta: Meta, status: nat, headers: map<string, string>, cookies: seq<string>,
                       bytes: Option<Bytes>): Option<Response> {
    if HeadPasses(lib, status, headers, cookies) && bytes.Some?
    then Some(Response(status, HeaderFields(lib, headers, cookies), Raw(bytes.value), Some(meta)))
    else None
  }

  /** An error text of the gateway's own. */
  function BadGateway(message: Message, meta: Meta): Response {
    Response(502, [], Text(message), Some(meta))
  }

  lemma {:induction false} TrimmedFirst(lib: Lib, cookies: seq<string>)
    requires cookies != []
    ensures Trimmed(lib, cookies) ==
            (if lib.trim(cookies[0]) == "" then [] else [lib.trim(cookies[0])]) + Trimmed(lib, cookies[1..])
  {
    var n := |cookies| - 1;
    if n == 0 {
      assert cookies[..0] == [] && cookies[1..] == [];
    } else {
      TrimmedFirst(lib, cookies[..n]);
      assert cookies[..n][1..] == cookies[1..][..n - 1] && cookies[1..][n - 1] == cookies[n];
    }
  }

  /** Nothing but the trimmed non-blank cookies is kept. */
  lemma {:induction false} TrimmedWhich(lib: Lib, cookies: seq<string>, c: string)
    ensures c in Trimmed(lib, cookies) <==> c != "" && exists i :: 0 <= i < |cookies| && lib.trim(cookies[i]) == c
  {
    if cookies == [] {
    } else {
      var n := |cookies| - 1;
      TrimmedWhich(lib, cookies[..n], c);
      assert forall i | 0 <= i < n :: cookies[..n][i] == cookies[i];
      if lib.trim(cookies[n]) != c && c != "" && exists i :: 0 <= i < |cookies| && lib.trim(cookies[i]) == c {
        var i :| 0 <= i < |cookies| && lib.trim(cookies[i]) == c;
        assert lib.trim(cookies[..n][i]) == c;
      }
    }
  }

  /** Trimming again what is trimmed changes nothing, as long as the library's own trimming is so. */
  lemma {:induction false} TrimmedTwice(lib: Lib, cookies: seq<string>)
    requires forall s :: lib.trim(lib.trim(s)) == lib.trim(s)
    ensures Trimmed(lib, Trimmed(lib, cookies)) == Trimmed(lib, cookies)
  {
    if cookies == [] {
    } else {
      var n := |cookies| - 1;
      TrimmedTwice(lib, cookies[..n]);
      var front, c := Trimmed(lib, cookies[..n]), lib.trim(cookies[n]);
      if c != "" {
        assert (front + [c])[..|front|] == front;
      } else {
        assert Trimmed(lib, cookies) == front;
      }
    }
  }

  lemma {:induction false} CookiesAppended(lib: Lib, headers: Headers, cookies: seq<string>)
    ensures AppendCookies(lib, headers, cookies) ==
            if forall c | c in Trimmed(lib, cookies) :: lib.cookieOk(c)
            then Some(headers + SetCookies(Trimmed(lib, cookies))) else None
    decreases |cookies|
  {
    if cookies == [] {
      assert headers + SetCookies([]) == headers;
    } else {
      TrimmedFirst(lib, cookies);
      var c, rest := lib.trim(cookies[0]), Trimmed(lib, cookies[1..]);
      hide Trimmed;
      if c == "" {
        assert [] + rest == rest;
        CookiesAppended(lib, headers, cookies[1..]);
      } else {
        assert SetCookies([c] + rest) == [("set-cookie", c)] + SetCookies(rest);
        CookiesAppended(lib, headers + [("set-cookie", c)], cookies[1..]);
        assert headers + [("set-cookie", c)] + SetCookies(rest) == headers + SetCookies([c] + rest);
        assert c in [c] + rest;
      }
    }
  }

  /** A head is refused for its status first, then for its fields, then for its cookies, and passed on
      with exactly its fields and cookies otherwise. */
  lemma HeadIff(lib: Lib, status: nat, headers: map<string, string>, cookies: seq<string>)
    ensures HeadParts(lib, status, headers, cookies) ==
            if HeadPasses(lib, status, headers, cookies) then Ok(HeaderFields(lib, headers, cookies))
            else Err(if !(100 <= status <= 999) then StatusError
                     else if !FieldsPass(lib, headers) then HeaderError
                     else CookieError)
  {
    if FieldsPass(lib, headers) {
      CookiesAppended(lib, if headers == map[] then [] else lib.headerMap(headers).value, cookies);
    }
    hide Trimmed, SetCookies, AppendCookies;
  }

  /** A whole response is refused as its head would be, or else for its body, or passed on. */
  lemma ResponseIff(lib: Lib, meta: Meta, status: nat, headers: map<string, string>, cookies: seq<string>,
                    body: string, isBase64: bool)
    ensures var parts := ResponseParts(lib, status, headers, cookies, body, isBase64);
            match Promised(lib, meta, status, headers, cookies, TextBytes(lib, body, isBase64))
            case Some(response) => parts == Ok(response.(meta := None)) && response.meta == Some(meta)
            case None =>
              && parts.Err?
              && if HeadPasses(lib, status, headers, cookies) then parts.error == BodyError
                 else HeadParts(lib, status, headers, cookies) == Err(parts.error)
  {
    HeadIff(lib, status, headers, cookies);
    hide HeadPasses, HeaderFields, HeadParts;
  }
}
