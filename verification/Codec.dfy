/**
 HTTP requests and responses as message metadata.

 The server flattens a request into a string map and the agent rebuilds it; the response travels back the
 same way.  Ranging over a map has no fixed order, so where two entries name the same header either may win,
 and decoding is specified as a relation that every order satisfies.
 */
module Codec {
  import opened Basics
  import opened Decimal
  import opened HeaderNames

  type Header = map<string, seq<string>>
  type Metadata = map<string, string>

  const PREFIX := "header_"
  const CONTENT_TYPE := "Content-Type"
  const STATUS_OK := 200

  datatype Request = Request(verb: string, path: string, query: string, header: Header)

  predicate HasPrefix(key: string) {
    |key| >= 7 && key[..7] == PREFIX
  }

  lemma PrefixIs(name: string)
    ensures HasPrefix(PREFIX + name) && (PREFIX + name)[7..] == name
  {
  }

  lemma Unprefix(key: string)
    requires HasPrefix(key)
    ensures key == PREFIX + key[7..]
  {
  }

  /** The first value of every header that has one. */
  function First(header: Header): Metadata {
    map h | h in header && header[h] != [] :: header[h][0]
  }

  function Singles(m: Metadata): Header {
    map h | h in m :: [m[h]]
  }

  function NonEmpty(m: Metadata): Metadata {
    map h | h in m && m[h] != "" :: m[h]
  }

  function FixedRequest(r: Request, contentType: string): Metadata {
    map["method" := r.verb, "path" := r.path, "query" := r.query, "content_type" := contentType]
  }

  function FixedResponse(status: int): Metadata {
    map["status_code" := Itoa(status)]
  }

  /** The fixed entries and one prefixed entry for the first value of every header. */
  ghost predicate Encodes(fixed: Metadata, header: Header, meta: Metadata) {
    && (forall key :: key in fixed ==> key in meta && meta[key] == fixed[key])
    && (forall h :: h in First(header) ==> PREFIX + h in meta && meta[PREFIX + h] == First(header)[h])
    && (forall key :: key in meta && key !in fixed ==> HasPrefix(key) && key[7..] in First(header))
  }

  ghost predicate NoPrefix(fixed: Metadata) {
    forall key :: key in fixed ==> !HasPrefix(key)
  }

  /** A fixed key is never a prefixed one, so no header can overwrite a fixed entry. */
  lemma FixedKeysApart(r: Request, contentType: string, status: int)
    ensures NoPrefix(FixedRequest(r, contentType)) && NoPrefix(FixedResponse(status))
  {
    assert "method"[0] != PREFIX[0] && "path"[0] != PREFIX[0] && "query"[0] != PREFIX[0];
    assert "content_type"[0] != PREFIX[0] && "status_code"[0] != PREFIX[0];
    assert forall key :: HasPrefix(key) ==> key[0] == key[..7][0] == PREFIX[0];
  }

  method FirstValues(header: Header) returns (headers: Metadata)
    ensures headers == First(header)
  {
    headers := map[];
    var todo := header.Keys;
    while todo != {}
      invariant todo <= header.Keys
      invariant headers == map h | h in header && h !in todo && header[h] != [] :: header[h][0]
      decreases |todo|
    {
      var key :| key in todo;
      todo := todo - {key};
      if |header[key]| > 0 {
        headers := headers[key := header[key][0]];
      }
    }
  }

  method AddHeaders(fixed: Metadata, header: Header) returns (meta: Metadata)
    requires NoPrefix(fixed)
    ensures Encodes(fixed, header, meta)
  {
    var headers := FirstValues(header);
    meta := fixed;
    var todo := headers.Keys;
    while todo != {}
      invariant todo <= headers.Keys
      invariant forall key :: key in fixed ==> key in meta && meta[key] == fixed[key]
      invariant forall h :: h in headers && h !in todo ==> PREFIX + h in meta && meta[PREFIX + h] == headers[h]
      invariant forall key :: key in meta && key !in fixed ==> HasPrefix(key) && key[7..] in headers
      decreases |todo|
    {
      var key :| key in todo;
      todo := todo - {key};
      PrefixIs(key);
      forall h ensures (PREFIX + h)[7..] == h { PrefixIs(h); }
      meta := meta[PREFIX + key := headers[key]];
    }
  }

  /** The metadata as it goes over the wire: these entries, one "header_" entry per header with a value, no more. */
  ghost predicate OnTheWire(fixed: Metadata, header: Header, meta: Metadata) {
    && (forall key :: key in fixed ==> key in meta && meta[key] == fixed[key])
    && (forall h :: h in header && header[h] != [] ==> "header_" + h in meta && meta["header_" + h] == header[h][0])
    && (forall key :: key in meta ==>
          key in fixed || (|key| >= 7 && key[..7] == "header_" && key[7..] in header && header[key[7..]] != []))
  }

  lemma EncodesOnTheWire(fixed: Metadata, header: Header, meta: Metadata)
    requires Encodes(fixed, header, meta)
    ensures OnTheWire(fixed, header, meta)
  {
    forall h | h in header && header[h] != []
      ensures "header_" + h in meta && meta["header_" + h] == header[h][0]
    {
      assert h in First(header);
    }
  }

  method EncodeRequest(r: Request, contentType: string) returns (meta: Metadata)
    ensures Encodes(FixedRequest(r, contentType), r.header, meta)
    ensures OnTheWire(map["method" := r.verb, "path" := r.path, "query" := r.query, "content_type" := contentType],
                      r.header, meta)
  {
    FixedKeysApart(r, contentType, 0);
    meta := AddHeaders(FixedRequest(r, contentType), r.header);
    EncodesOnTheWire(FixedRequest(r, contentType), r.header, meta);
  }

  method EncodeResponse(status: int, header: Header) returns (meta: Metadata)
    ensures Encodes(FixedResponse(status), header, meta)
    ensures OnTheWire(map["status_code" := Itoa(status)], header, meta)
  {
    FixedKeysApart(Request("", "", "", map[]), "", status);
    meta := AddHeaders(FixedResponse(status), header);
    EncodesOnTheWire(FixedResponse(status), header, meta);
  }

  datatype Side = Agent | Server

  /** The header that a decoding side sets from an entry, in canonical form, if it sets one. */
  function HeaderFor(side: Side, key: string, value: string): Option<string> {
    match side
    case Agent =>
      if HasPrefix(key) then Some(Canonical(key[7..])) else None
    case Server =>
      if key == "status_code" || value == "" then None
      else Some(Canonical(if |key| > 7 && HasPrefix(key) then key[7..] else key))
  }

  predicate Supplies(side: Side, meta: Metadata, key: string, name: string) {
    key in meta && HeaderFor(side, key, meta[key]) == Some(name)
  }

  /** Every entry that names a header sets it, and every header set comes from an entry that names it. */
  ghost predicate Collects(side: Side, meta: Metadata, header: Header) {
    && (forall key, name :: Supplies(side, meta, key, name) ==> name in header)
    && (forall name :: name in header ==> exists key :: Supplies(side, meta, key, name) && header[name] == [meta[key]])
  }

  function Get(meta: Metadata, key: string): string {
    if key in meta then meta[key] else ""
  }

  function WithContentType(header: Header, contentType: string): Header {
    if contentType == "" then header else header[CONTENT_TYPE := [contentType]]
  }

  method CollectHeaders(side: Side, meta: Metadata) returns (header: Header)
    ensures Collects(side, meta, header)
  {
    header := map[];
    var todo := meta.Keys;
    while todo != {}
      invariant todo <= meta.Keys
      invariant forall key, name :: Supplies(side, meta, key, name) && key !in todo ==> name in header
      invariant forall name :: name in header ==>
        exists key :: Supplies(side, meta, key, name) && header[name] == [meta[key]]
      decreases |todo|
    {
      var key :| key in todo;
      todo := todo - {key};
      var name := HeaderFor(side, key, meta[key]);
      if name.Some? {
        header := header[name.value := [meta[key]]];
        assert Supplies(side, meta, key, name.value);
      }
    }
  }

  /** The headers of the entries, in whatever order they were set, and then the content type. */
  ghost predicate Rebuilds(meta: Metadata, header: Header) {
    exists collected :: Collects(Agent, meta, collected) && header == WithContentType(collected, Get(meta, "content_type"))
  }

  predicate IsHeaderEntry(meta: Metadata, key: string) {
    key in meta && |key| >= 7 && key[..7] == "header_"
  }

  lemma HeaderEntries(meta: Metadata, header: Header)
    requires Collects(Agent, meta, header)
    ensures forall key :: IsHeaderEntry(meta, key) ==> Canonical(key[7..]) in header
    ensures forall name :: name in header ==>
      exists key :: IsHeaderEntry(meta, key) && name == Canonical(key[7..]) && header[name] == [meta[key]]
  {
    forall key | IsHeaderEntry(meta, key)
      ensures Canonical(key[7..]) in header
    {
      assert Supplies(Agent, meta, key, Canonical(key[7..]));
    }
    forall name | name in header
      ensures exists key :: IsHeaderEntry(meta, key) && name == Canonical(key[7..]) && header[name] == [meta[key]]
    {
      var key :| Supplies(Agent, meta, key, name) && header[name] == [meta[key]];
      assert IsHeaderEntry(meta, key);
    }
  }

  /** A missing entry reads as the empty string. */
  method DecodeRequest(meta: Metadata) returns (r: Request)
    ensures r.verb == Get(meta, "method") && r.path == Get(meta, "path") && r.query == Get(meta, "query")
    ensures Rebuilds(meta, r.header)
    ensures forall key :: IsHeaderEntry(meta, key) ==> Canonical(key[7..]) in r.header
    ensures forall name :: name in r.header ==>
      || (name == "Content-Type" && Get(meta, "content_type") != "" && r.header[name] == [Get(meta, "content_type")])
      || exists key :: IsHeaderEntry(meta, key) && name == Canonical(key[7..]) && r.header[name] == [meta[key]]
  {
    var header := CollectHeaders(Agent, meta);
    HeaderEntries(meta, header);
    var contentType := Get(meta, "content_type");
    if contentType != "" {
      header := header[CONTENT_TYPE := [contentType]];
    }
    r := Request(Get(meta, "method"), Get(meta, "path"), Get(meta, "query"), header);
  }

  function StatusOf(meta: Metadata): int {
    if "status_code" in meta && Atoi(meta["status_code"]).Some? then Atoi(meta["status_code"]).value else STATUS_OK
  }

  method DecodeResponse(meta: Metadata) returns (status: int, header: Header)
    ensures status == StatusOf(meta) && Collects(Server, meta, header)
    ensures "status_code" !in meta || Atoi(meta["status_code"]).None? ==> status == 200
  {
    status := STATUS_OK;
    if "status_code" in meta {
      var code := Atoi(meta["status_code"]);
      if code.Some? {
        status := code.value;
      }
    }
    header := CollectHeaders(Server, meta);
  }

  /** As net/http keeps them: every name that has a value is in canonical form. */
  ghost predicate CanonicalNames(header: Header) {
    forall h :: h in First(header) ==> Canonical(h) == h
  }

  lemma FixedEntries(r: Request, contentType: string, meta: Metadata)
    requires Encodes(FixedRequest(r, contentType), r.header, meta)
    ensures Get(meta, "method") == r.verb && Get(meta, "path") == r.path && Get(meta, "query") == r.query
    ensures Get(meta, "content_type") == contentType
  {
    var fixed := FixedRequest(r, contentType);
    assert "method" in fixed && fixed["method"] == r.verb;
    assert "path" in fixed && fixed["path"] == r.path;
    assert "query" in fixed && fixed["query"] == r.query;
    assert "content_type" in fixed && fixed["content_type"] == contentType;
  }

  lemma AgentCollects(r: Request, contentType: string, meta: Metadata, collected: Header)
    requires Encodes(FixedRequest(r, contentType), r.header, meta) && CanonicalNames(r.header)
    requires Collects(Agent, meta, collected)
    ensures collected == Singles(First(r.header))
  {
    FixedKeysApart(r, contentType, 0);
    forall h | h in First(r.header)
      ensures h in collected
    {
      PrefixIs(h);
      assert Supplies(Agent, meta, PREFIX + h, h);
    }
    forall h | h in collected
      ensures h in First(r.header) && collected[h] == [First(r.header)[h]]
    {
      var key :| Supplies(Agent, meta, key, h) && collected[h] == [meta[key]];
      Unprefix(key);
    }
  }

  /** Every header keeps its first value, except that a non-empty content type is that header's only value. */
  ghost predicate Rebuilt(header: Header, contentType: string, out: Header) {
    && (forall h :: h != "Content-Type" || contentType == "" ==> (h in out <==> h in header && header[h] != []))
    && (forall h :: h != "Content-Type" || contentType == "" ==> h in out ==> out[h] == [header[h][0]])
    && (contentType != "" ==> "Content-Type" in out && out["Content-Type"] == [contentType])
  }

  lemma IsRebuilt(header: Header, contentType: string)
    ensures Rebuilt(header, contentType, WithContentType(Singles(First(header)), contentType))
  {
  }

  /**
   Through the agent a request keeps its method, path, query and the first value of every header; the one
   exception is Content-Type, which is replaced by the separate entry unless that is empty.
   */
  method RequestThroughAgent(r: Request, contentType: string) returns (out: Request)
    requires CanonicalNames(r.header)
    ensures out == Request(r.verb, r.path, r.query, WithContentType(Singles(First(r.header)), contentType))
    ensures Rebuilt(r.header, contentType, out.header)
  {
    var meta := EncodeRequest(r, contentType);
    out := DecodeRequest(meta);
    ghost var collected :|
      Collects(Agent, meta, collected) && out.header == WithContentType(collected, Get(meta, "content_type"));
    AgentCollects(r, contentType, meta, collected);
    FixedEntries(r, contentType, meta);
    IsRebuilt(r.header, contentType);
  }

  /** The whole header survives exactly if the separate entry is empty or repeats the header's first value. */
  lemma ContentTypeSurvivesIff(header: Header, contentType: string)
    ensures WithContentType(Singles(First(header)), contentType) == Singles(First(header)) <==>
      contentType == "" ||
      ("Content-Type" in header && header["Content-Type"] != [] && header["Content-Type"][0] == contentType)
  {
    var m := Singles(First(header));
    if contentType != "" {
      assert m[CONTENT_TYPE := [contentType]] == m <==> CONTENT_TYPE in m && m[CONTENT_TYPE] == [contentType];
      assert CONTENT_TYPE in m ==> (m[CONTENT_TYPE] == [contentType] <==> First(header)[CONTENT_TYPE] == contentType);
    }
  }

  /** No entry of an encoded response names the empty header. */
  lemma ServerNames(status: int, header: Header, meta: Metadata, key: string, name: string)
    requires Encodes(FixedResponse(status), header, meta) && Supplies(Server, meta, key, name)
    ensures HasPrefix(key) && key[7..] in First(header) && meta[key] == First(header)[key[7..]] && name != ""
    ensures key != PREFIX ==> name == Canonical(key[7..])
  {
    assert key !in FixedResponse(status);
    Unprefix(key);
  }

  lemma ServerSets(status: int, header: Header, meta: Metadata, out: Header, h: string)
    requires Encodes(FixedResponse(status), header, meta) && CanonicalNames(header) && Collects(Server, meta, out)
    requires h in First(header) && First(header)[h] != "" && h != ""
    ensures h in out
  {
    PrefixIs(h);
    FixedKeysApart(Request("", "", "", map[]), "", status);
    assert Supplies(Server, meta, PREFIX + h, h);
  }

  lemma ServerSetsOnly(status: int, header: Header, meta: Metadata, out: Header, h: string)
    requires Encodes(FixedResponse(status), header, meta) && CanonicalNames(header) && Collects(Server, meta, out)
    requires h in out
    ensures h != ""
    ensures Get(First(header), "") == "" ==>
      h in First(header) && First(header)[h] != "" && out[h] == [First(header)[h]]
  {
    var key :| Supplies(Server, meta, key, h) && out[h] == [meta[key]];
    ServerNames(status, header, meta, key, h);
    assert key == PREFIX ==> key[7..] == "";
  }

  lemma ServerCollects(status: int, header: Header, meta: Metadata, out: Header)
    requires Encodes(FixedResponse(status), header, meta) && CanonicalNames(header) && Collects(Server, meta, out)
    ensures out == Singles(NonEmpty(First(header))) <==> Get(First(header), "") == ""
  {
    var expected := Singles(NonEmpty(First(header)));
    if Get(First(header), "") == "" {
      forall h | h in expected
        ensures h in out
      {
        ServerSets(status, header, meta, out, h);
      }
      forall h | h in out
        ensures h in expected && out[h] == expected[h]
      {
        ServerSetsOnly(status, header, meta, out, h);
      }
    } else {
      assert "" in expected;
      if "" in out {
        ServerSetsOnly(status, header, meta, out, "");
      }
    }
  }

  lemma StatusSurvives(status: int, header: Header, meta: Metadata)
    requires Encodes(FixedResponse(status), header, meta)
    ensures StatusOf(meta) == if MIN_INT <= status <= MAX_INT then status else STATUS_OK
  {
    assert "status_code" in FixedResponse(status);
    PrintThenParse(status);
  }

  /**
   Through the server a response keeps its status and exactly the non-empty first values of its headers,
   if and only if no non-empty value stands under the empty name.
   */
  method ResponseThroughServer(status: int, header: Header) returns (code: int, out: Header)
    requires CanonicalNames(header)
    ensures code == if MIN_INT <= status <= MAX_INT then status else STATUS_OK
    ensures out == Singles(NonEmpty(First(header))) <==> Get(First(header), "") == ""
    ensures ("" !in header || header[""] == [] || header[""][0] == "") ==>
      && (forall h :: h in out <==> h in header && header[h] != [] && header[h][0] != "")
      && (forall h :: h in out ==> out[h] == [header[h][0]])
  {
    var meta := EncodeResponse(status, header);
    code, out := DecodeResponse(meta);
    StatusSurvives(status, header, meta);
    ServerCollects(status, header, meta, out);
  }

  /** The agent's answer when the local request fails. */
  function FailureMetadata(message: string): Metadata {
    map["status_code" := "502", "error" := message]
  }

  lemma ErrorName()
    ensures Canonical("error") == "Error"
  {
    assert AllTokens("error") by {
      assert forall i :: 0 <= i < |"error"| ==> IsLower("error"[i]);
    }
    assert Cased("error", true) == "Error" by {
      assert "error"[1..] == "rror" && "rror"[1..] == "ror" && "ror"[1..] == "or" && "or"[1..] == "r";
      assert Cased("r", false) == "r";
      assert Cased("or", false) == "or";
      assert Cased("ror", false) == "ror";
      assert Cased("rror", false) == "rror";
    }
  }

  lemma BadGateway()
    ensures Atoi("502") == Some(502)
  {
    assert "502"[..2] == "50" && "50"[..1] == "5" && "5"[..0] == "";
    assert Value("5") == 5;
    assert Value("50") == 50;
    assert Value("502") == 502;
  }

  /** The client sees status 502 and the message in a header named Error. */
  method FailureThroughServer(message: string) returns (code: int, out: Header)
    ensures code == 502
    ensures out == if message == "" then map[] else map["Error" := [message]]
  {
    var meta := FailureMetadata(message);
    code, out := DecodeResponse(meta);
    BadGateway();
    ErrorName();
    assert HeaderFor(Server, "error", message) == if message == "" then None else Some("Error");
    assert forall key, name :: Supplies(Server, meta, key, name) ==> key == "error";
    assert message != "" ==> Supplies(Server, meta, "error", "Error");
  }
}
