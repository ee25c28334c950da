/**
 * The request helpers of Util: the sort order chosen from the request
 * parameters, the client address behind a proxy, and the choice of a JSON
 * response from the already parsed Accept header.
 */
module RequestUtil {
  import opened Wrappers

  /** What the helpers read from an HttpServletRequest. */
  datatype Request = Request(
    parameters: map<string, string>,   // getParameter: the first value of each parameter
    headers: map<string, string>,      // getHeader, by the header name as the source spells it
    remoteAddr: string)                // getRemoteAddr

  /** A Hibernate criteria order on a property. */
  datatype Order = Asc(property: string) | Desc(property: string)

  /** A media type as Spring parses it: type and subtype lower-case, then its parameters. */
  datatype MediaType = MediaType(kind: string, subtype: string, parameters: map<string, string>)

  datatype RequestError = ArrayIndexOutOfBounds(index: int)

  const SortParameter := "customSortParam"
  const DirectionParameter := "dir"
  const ForwardedForHeader := "X-FORWARDED-FOR"
  const ApplicationJson := MediaType("application", "json", map[])
  const TextHtml := MediaType("text", "html", map[])

  function Lookup(m: map<string, string>, name: string): Option<string> {
    if name in m then Some(m[name]) else None
  }

  // ---------------------------------------------------------------- sorting

  function LowerCase(c: char): char {
    if 'A' <= c <= 'Z' then (c as int + 32) as char else c
  }

  /** String.toLowerCase on the letters that can spell "desc". */
  function ToLowerCase(s: string): (t: string)
    ensures |t| == |s|
    ensures forall i | 0 <= i < |s| :: t[i] == LowerCase(s[i])
  {
    seq(|s|, i requires 0 <= i < |s| => LowerCase(s[i]))
  }

  /** The direction reads "desc" in any mix of upper- and lower-case letters. */
  predicate SpellsDescAnyCase(dir: string) {
    && |dir| == 4
    && (dir[0] == 'd' || dir[0] == 'D')
    && (dir[1] == 'e' || dir[1] == 'E')
    && (dir[2] == 's' || dir[2] == 'S')
    && (dir[3] == 'c' || dir[3] == 'C')
  }

  /**
   * Util.getSortingList: an order only when the request names both a non-empty
   * sort property and a non-empty direction; descending for "desc" in any
   * case, ascending for every other direction.
   */
  function SortingList(request: Option<Request>): (order: Option<Order>)
    ensures order.Some? <==>
              && request.Some?
              && Lookup(request.value.parameters, SortParameter).Some?
              && Lookup(request.value.parameters, SortParameter).value != ""
              && Lookup(request.value.parameters, DirectionParameter).Some?
              && Lookup(request.value.parameters, DirectionParameter).value != ""
    ensures order.Some? ==> order.value.property == request.value.parameters[SortParameter]
    ensures order.Some? ==> (order.value.Desc? <==> SpellsDescAnyCase(request.value.parameters[DirectionParameter]))
  {
    match request
    case None => None
    case Some(r) =>
      var fieldName := Lookup(r.parameters, SortParameter);
      var dir := Lookup(r.parameters, DirectionParameter);
      if fieldName.Some? && fieldName.value != "" && dir.Some? && dir.value != "" then
        if ToLowerCase(dir.value) == "desc" then Some(Desc(fieldName.value)) else Some(Asc(fieldName.value))
      else
        None
  }

  // ------------------------------------------------------- client address

  /** The index of the first comma in s, or |s| when there is none. */
  function FirstComma(s: string): (i: nat)
    ensures i <= |s|
    ensures forall k | 0 <= k < i :: s[k] != ','
    ensures i < |s| ==> s[i] == ','
  {
    if s == [] || s[0] == ',' then 0 else 1 + FirstComma(s[1..])
  }

  /** The pieces of s between commas, empty pieces included. */
  function CommaFields(s: string): (fields: seq<string>)
    ensures |fields| >= 1
    decreases |s|
  {
    var i := FirstComma(s);
    if i == |s| then [s] else [s[..i]] + CommaFields(s[i + 1..])
  }

  function DropTrailingEmpty(fields: seq<string>): (kept: seq<string>)
    ensures kept <= fields
  {
    if fields != [] && fields[|fields| - 1] == "" then DropTrailingEmpty(fields[..|fields| - 1]) else fields
  }

  /**
   * Java's s.split(","): the input itself when it holds no comma, otherwise
   * the pieces between commas with the trailing empty ones removed.
   */
  function JavaSplitOnComma(s: string): seq<string> {
    if FirstComma(s) == |s| then [s] else DropTrailingEmpty(CommaFields(s))
  }

  /**
   * Util.getClientIpAddress: the first element of the X-FORWARDED-FOR header
   * split on commas, which fails when the split is empty; the remote address
   * when the header is absent. The first element is the header's text up to
   * its first comma, and the split is empty exactly when the header is
   * non-empty and holds nothing but commas.
   */
  function ClientIpAddress(request: Request): (r: Result<string, RequestError>)
    ensures ForwardedForHeader !in request.headers ==> r == Success(request.remoteAddr)
    ensures ForwardedForHeader in request.headers ==>
              var forwarded := request.headers[ForwardedForHeader];
              && (r.Failure? <==> forwarded != "" && OnlyCommas(forwarded))
              && (r.Failure? ==> r.error == ArrayIndexOutOfBounds(0))
              && (r.Success? ==>
                    && ',' !in r.value
                    && r.value <= forwarded
                    && (|r.value| < |forwarded| ==> forwarded[|r.value|] == ','))
  {
    match Lookup(request.headers, ForwardedForHeader)
    case Some(forwarded) =>
      var fields := JavaSplitOnComma(forwarded);
      SplitOnCommaHead(forwarded);
      if |fields| == 0 then Failure(ArrayIndexOutOfBounds(0)) else Success(fields[0])
    case None => Success(request.remoteAddr)
  }

  predicate OnlyCommas(s: string) {
    forall i | 0 <= i < |s| :: s[i] == ','
  }

  lemma {:induction false} FirstFieldBeforeFirstComma(s: string)
    ensures CommaFields(s)[0] == s[..FirstComma(s)]
  {
  }

  /** Every piece between commas is empty exactly when the text is nothing but commas. */
  lemma {:induction false} FieldsEmptyIffOnlyCommas(s: string)
    ensures (forall j | 0 <= j < |CommaFields(s)| :: CommaFields(s)[j] == "") <==> OnlyCommas(s)
    decreases |s|
  {
    var fields := CommaFields(s);
    var i := FirstComma(s);
    if i < |s| {
      var rest := s[i + 1..];
      FieldsEmptyIffOnlyCommas(rest);
      assert fields == [s[..i]] + CommaFields(rest);
      if OnlyCommas(s) {
        assert i == 0;
        assert OnlyCommas(rest);
        forall j | 0 <= j < |fields| ensures fields[j] == "" {
          if j > 0 {
            assert fields[j] == CommaFields(rest)[j - 1];
          }
        }
      } else if forall j | 0 <= j < |fields| :: fields[j] == "" {
        assert s[..i] == fields[0];
        assert i == 0;
        forall j | 0 <= j < |CommaFields(rest)| ensures CommaFields(rest)[j] == "" {
          assert CommaFields(rest)[j] == fields[j + 1];
        }
        assert OnlyCommas(rest);
        forall k | 0 <= k < |s| ensures s[k] == ',' {
          if k > 0 {
            assert s[k] == rest[k - 1];
          }
        }
        assert false;
      }
    } else if s != [] {
      assert CommaFields(s) == [s];
      assert CommaFields(s)[0] != "";
      assert s[0] != ',';
    }
  }

  /** The trailing-empty filter leaves nothing exactly when every piece is empty. */
  lemma {:induction false} DropTrailingEmptyIsEmpty(fields: seq<string>)
    ensures DropTrailingEmpty(fields) == [] <==> forall j | 0 <= j < |fields| :: fields[j] == ""
    decreases |fields|
  {
    if fields != [] && fields[|fields| - 1] == "" {
      var init := fields[..|fields| - 1];
      DropTrailingEmptyIsEmpty(init);
      assert forall j | 0 <= j < |init| :: init[j] == fields[j];
    }
  }

  /**
   * The split of a text on commas is empty exactly when the text is non-empty
   * and nothing but commas; otherwise its first element is the text before the
   * first comma.
   */
  lemma SplitOnCommaHead(s: string)
    ensures |JavaSplitOnComma(s)| == 0 <==> s != "" && OnlyCommas(s)
    ensures |JavaSplitOnComma(s)| > 0 ==> JavaSplitOnComma(s)[0] == s[..FirstComma(s)]
  {
    var i := FirstComma(s);
    if i < |s| {
      var fields := CommaFields(s);
      FieldsEmptyIffOnlyCommas(s);
      DropTrailingEmptyIsEmpty(fields);
      FirstFieldBeforeFirstComma(s);
      if DropTrailingEmpty(fields) != [] {
        assert DropTrailingEmpty(fields)[0] == fields[0];
      }
    } else {
      assert JavaSplitOnComma(s) == [s];
      if s != "" {
        assert s[0] != ',';
      }
    }
  }

  // ------------------------------------------------------- content negotiation

  /**
   * Util.useJsonResponse, given the Accept header as parsed media types (None
   * when the request has no Accept header): JSON is accepted and HTML is not.
   */
  function UseJsonResponse(accepted: Option<seq<MediaType>>): (useJson: bool)
    ensures useJson <==>
              && accepted.Some?
              && (exists i | 0 <= i < |accepted.value| :: accepted.value[i] == ApplicationJson)
              && (forall i | 0 <= i < |accepted.value| :: accepted.value[i] != TextHtml)
  {
    match accepted
    case None => false
    case Some(types) =>
      var acceptsHtml := TextHtml in types;
      var acceptsJson := ApplicationJson in types;
      acceptsJson && !acceptsHtml
  }
}
