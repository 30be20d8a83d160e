/** The mailbox side of the plugin (`FEC_Email_Connector`): provider settings,
    newest-first pagination over a folder, MIME structure queries, body and
    preview extraction, address lists and encoded-word decoding. The IMAP server
    is a value: a map from folder names to the sequence of messages, message
    number k being element k - 1. */
module EmailConnector {
  import opened Text
  import opened Foreign

  // ---------------------------------------------------------------------
  // Provider settings
  // ---------------------------------------------------------------------

  datatype ServerSettings = ServerSettings(mailbox: string, smtpHost: string, smtpPort: nat, smtpSecure: string)

  const GmailSettings := ServerSettings("{imap.gmail.com:993/imap/ssl}INBOX", "smtp.gmail.com", 465, "ssl")
  const Office365Settings := ServerSettings("{outlook.office365.com:993/imap/ssl}INBOX", "smtp.office365.com", 587, "tls")
  const YahooSettings := ServerSettings("{imap.mail.yahoo.com:993/imap/ssl}INBOX", "smtp.mail.yahoo.com", 465, "ssl")

  /** The provider ids with settings, lower case. */
  const KnownProviders: seq<string> := ["gmail", "outlook", "hotmail", "live", "yahoo"]

  /** `get_provider_settings`: the id is lower-cased, the three Microsoft ids share
      one server, and any other id is refused. */
  function ProviderSettings(provider: string): (r: Result<ServerSettings>)
    ensures r.Ok? <==> LowerStr(provider) in KnownProviders
    ensures r.Err? ==> r.code == "invalid_provider"
    ensures r.Ok? ==> r.value.smtpSecure == (if r.value.smtpPort == 587 then "tls" else "ssl")
  {
    var p := LowerStr(provider);
    if p == "gmail" then Ok(GmailSettings)
    else if p == "outlook" || p == "hotmail" || p == "live" then Ok(Office365Settings)
    else if p == "yahoo" then Ok(YahooSettings)
    else Err("invalid_provider", "Unsupported email provider.")
  }

  /** Provider ids are compared without regard to case. */
  lemma ProviderIgnoresCase(a: string, b: string)
    requires LowerStr(a) == LowerStr(b)
    ensures ProviderSettings(a) == ProviderSettings(b)
  {
  }

  /** "outlook", "hotmail" and "live", in any capitalisation, name the Office 365
      server, which is neither the Gmail nor the Yahoo one. */
  lemma MicrosoftAliases(a: string)
    requires LowerStr(a) in ["outlook", "hotmail", "live"]
    ensures ProviderSettings(a) == Ok(Office365Settings)
    ensures Office365Settings != GmailSettings && Office365Settings != YahooSettings
  {
    var p := LowerStr(a);
    assert |p| != 5;
  }

  // ---------------------------------------------------------------------
  // The mailbox
  // ---------------------------------------------------------------------

  /** One entry of an address list; a property the server left out is None. */
  datatype Address = Address(mailbox: Option<string>, host: Option<string>, personal: Option<string>)

  /** What `imap_headerinfo` reports. The flag values are the raw strings the
      server sent; `cc` is None when the header has no Cc. */
  datatype Header = Header(subject: Option<string>, from: seq<Address>, to: seq<Address>, cc: Option<seq<Address>>,
                           date: string, size: nat,
                           flagged: Option<string>, answered: Option<string>, seen: Option<string>)

  /** A MIME part as `imap_fetchstructure` describes it (RFC 2045, RFC 2183):
      `disposition` is None when `ifdisposition` is false, `dparameters` and
      `parameters` hold the parameter values in order, and an empty `parts`
      stands for a part without sub-parts. */
  datatype Part = Part(ptype: int, encoding: int, subtype: string, disposition: Option<string>,
                       dparameters: seq<string>, parameters: seq<string>, bytes: nat, parts: seq<Part>)

  /** A message: its header and structure (None when the fetch fails), its UID
      (section 2.3.1.1 of RFC 3501), its body sections `1`, `2`, … and its whole
      body text. */
  datatype Message = Message(header: Option<Header>, structure: Option<Part>, uid: nat,
                             sections: seq<string>, text: string)

  /** The server: the messages of each folder, and the text `imap_last_error` gives. */
  datatype Mailbox = Mailbox(folders: map<string, seq<Message>>, lastError: string)

  /** `imap_headerinfo($stream, $i)`: fails for numbers outside the folder. */
  function HeaderAt(msgs: seq<Message>, i: int): (r: Option<Header>)
    ensures r.Some? ==> 1 <= i <= |msgs|
  {
    if 1 <= i <= |msgs| then msgs[i - 1].header else None
  }

  /** `imap_fetchbody($stream, $msg, $k)`: "" for a section the message lacks. */
  function Section(m: Message, k: nat): string {
    if 1 <= k <= |m.sections| then m.sections[k - 1] else ""
  }

  /** UIDs grow strictly with the message number (section 2.3.1.1 of RFC 3501). */
  predicate UidsAscending(msgs: seq<Message>) {
    forall i, j :: 0 <= i < j < |msgs| ==> msgs[i].uid < msgs[j].uid
  }

  /** `imap_msgno`: the number of the message with the given UID, 0 when none has it. */
  function MsgNo(msgs: seq<Message>, uid: nat, from: nat): (r: nat)
    ensures r != 0 ==> from < r <= |msgs| && msgs[r - 1].uid == uid
    ensures r == 0 ==> forall j :: from <= j < |msgs| ==> msgs[j].uid != uid
    decreases |msgs| - from
  {
    if from >= |msgs| then 0
    else if msgs[from].uid == uid then from + 1
    else MsgNo(msgs, uid, from + 1)
  }

  /** `imap_msgno(imap_uid(i)) == i`: numbers and UIDs are two names for the same messages. */
  lemma MsgNoOfUid(msgs: seq<Message>, i: nat)
    requires UidsAscending(msgs) && 1 <= i <= |msgs|
    ensures MsgNo(msgs, msgs[i - 1].uid, 0) == i
  {
    var r := MsgNo(msgs, msgs[i - 1].uid, 0);
    assert r != 0;
    assert msgs[r - 1].uid == msgs[i - 1].uid;
  }

  // ---------------------------------------------------------------------
  // Structure queries
  // ---------------------------------------------------------------------

  /** `ifdisposition` and a disposition equal to "attachment" ignoring case. */
  predicate IsAttachment(p: Part) {
    p.disposition.Some? && LowerStr(p.disposition.value) == "attachment"
  }

  /** The scan of `has_attachments` from sub-part `k` of `p` on: a sub-part is an
      attachment, or has one below it. */
  function AttachmentFrom(p: Part, k: nat): bool
    decreases p, |p.parts| - k
  {
    if k >= |p.parts| then false
    else IsAttachment(p.parts[k]) || AttachmentFrom(p.parts[k], 0) || AttachmentFrom(p, k + 1)
  }

  /** `has_attachments`; a structure that could not be fetched has none. */
  function HasAttachments(s: Option<Part>): bool {
    s.Some? && AttachmentFrom(s.value, 0)
  }

  /** The part reached from `p` by following sub-part indexes. */
  function SubPart(p: Part, path: seq<nat>): Option<Part>
    decreases |path|
  {
    if path == [] then Some(p)
    else if path[0] < |p.parts| then SubPart(p.parts[path[0]], path[1..])
    else None
  }

  /** The part at `path`, strictly below `p`, is an attachment. */
  predicate AttachmentAt(p: Part, path: seq<nat>) {
    |path| > 0 && SubPart(p, path).Some? && IsAttachment(SubPart(p, path).value)
  }

  lemma SubPartCons(p: Part, k: nat, path: seq<nat>)
    requires k < |p.parts|
    ensures SubPart(p, [k] + path) == SubPart(p.parts[k], path)
  {
    assert ([k] + path)[1..] == path;
  }

  /** A scan that succeeds has found an attachment at a path through a sub-part
      at or after `k`. */
  lemma {:induction false} AttachmentFromWitness(p: Part, k: nat)
    requires AttachmentFrom(p, k)
    ensures exists path :: AttachmentAt(p, path) && path[0] >= k
    decreases p, |p.parts| - k
  {
    var c := p.parts[k];
    if IsAttachment(c) {
      SubPartCons(p, k, []);
      assert AttachmentAt(p, [k]);
    } else if AttachmentFrom(c, 0) {
      AttachmentFromWitness(c, 0);
      var q :| AttachmentAt(c, q) && q[0] >= 0;
      SubPartCons(p, k, q);
      assert AttachmentAt(p, [k] + q);
    } else {
      AttachmentFromWitness(p, k + 1);
    }
  }

  /** An attachment at a path through a sub-part at or after `k` is found by the scan. */
  lemma {:induction false} AttachmentAtFound(p: Part, k: nat, path: seq<nat>)
    requires AttachmentAt(p, path) && path[0] >= k
    ensures AttachmentFrom(p, k)
    decreases p, |p.parts| - k
  {
    assert path[0] < |p.parts|;
    if path[0] == k {
      var q := path[1..];
      assert path == [k] + q;
      SubPartCons(p, k, q);
      if q != [] {
        assert AttachmentAt(p.parts[k], q);
        AttachmentAtFound(p.parts[k], 0, q);
      }
    } else {
      AttachmentAtFound(p, k + 1, path);
    }
  }

  /** `has_attachments` holds exactly when some part below the root, at any depth,
      is an attachment. */
  lemma HasAttachmentsIff(p: Part)
    ensures HasAttachments(Some(p)) <==> exists path :: AttachmentAt(p, path)
  {
    if HasAttachments(Some(p)) {
      AttachmentFromWitness(p, 0);
    }
    if exists path :: AttachmentAt(p, path) {
      var path :| AttachmentAt(p, path);
      AttachmentAtFound(p, 0, path);
    }
  }

  /** One entry of `get_attachments`. */
  datatype Attachment = Attachment(name: string, partNumber: nat, size: nat, subtype: string)

  /** The file name of an attachment part: the first disposition parameter, else
      the first content-type parameter, else "". */
  function FileName(p: Part): string {
    if |p.dparameters| > 0 then p.dparameters[0]
    else if |p.parameters| > 0 then p.parameters[0]
    else ""
  }

  /** The entry of top-level part `i`: its decoded file name, number `i + 1`, size and subtype. */
  function ListedAs(lib: Lib, parts: seq<Part>, i: nat): Attachment
    requires i < |parts|
  {
    Attachment(MimeDecoded(lib, FileName(parts[i])), i + 1, parts[i].bytes, parts[i].subtype)
  }

  /** The attachments among the first `n` top-level parts, numbered from 1. */
  function AttachmentsOf(lib: Lib, parts: seq<Part>, n: nat): (r: seq<Attachment>)
    requires n <= |parts|
    ensures forall a :: a in r ==> 1 <= a.partNumber <= n && IsAttachment(parts[a.partNumber - 1])
    ensures forall i, j :: 0 <= i < j < |r| ==> r[i].partNumber < r[j].partNumber
  {
    if n == 0 then []
    else
      var p := parts[n - 1];
      AttachmentsOf(lib, parts, n - 1) + (if IsAttachment(p) then [ListedAs(lib, parts, n - 1)] else [])
  }

  /** Every top-level attachment is listed, under its own number. */
  lemma {:induction false} AttachmentsComplete(lib: Lib, parts: seq<Part>, n: nat, i: nat)
    requires n <= |parts| && i < n && IsAttachment(parts[i])
    ensures exists a :: a in AttachmentsOf(lib, parts, n) && a == ListedAs(lib, parts, i)
  {
    if i < n - 1 {
      AttachmentsComplete(lib, parts, n - 1, i);
      var a :| a in AttachmentsOf(lib, parts, n - 1) && a == ListedAs(lib, parts, i);
      assert a in AttachmentsOf(lib, parts, n);
    } else {
      assert ListedAs(lib, parts, i) in AttachmentsOf(lib, parts, n);
    }
  }

  /** `get_attachments`: only the top-level parts are looked at. */
  method Attachments(lib: Lib, s: Option<Part>) returns (r: seq<Attachment>)
    ensures s.None? ==> r == []
    ensures s.Some? ==> r == AttachmentsOf(lib, s.value.parts, |s.value.parts|)
  {
    r := [];
    if s.None? {
      return;
    }
    var parts := s.value.parts;
    var k := 0;
    while k < |parts|
      invariant 0 <= k <= |parts|
      invariant r == AttachmentsOf(lib, parts, k)
    {
      var part := parts[k];
      if IsAttachment(part) {
        var name := DecodeMimeStr(lib, FileName(part));
        r := r + [Attachment(name, k + 1, part.bytes, part.subtype)];
      }
      k := k + 1;
    }
  }

  /** An attachment nested in a sub-part makes `has_attachments` true although
      `get_attachments` does not list it. */
  lemma NestedAttachmentNotListed(lib: Lib, inner: Part)
    requires IsAttachment(inner)
    ensures var root := Part(1, 0, "MIXED", None, [], [], 0, [Part(1, 0, "ALTERNATIVE", None, [], [], 0, [inner])]);
      HasAttachments(Some(root)) && AttachmentsOf(lib, root.parts, |root.parts|) == []
  {
  }

  // ---------------------------------------------------------------------
  // Bodies
  // ---------------------------------------------------------------------

  /** `decode_message_body`: transfer encoding 3 is base64 (section 6.8 of
      RFC 2045), 4 is quoted-printable (section 6.7), any other passes through. */
  function DecodeMessageBody(lib: Lib, body: string, encoding: int): (r: string)
    ensures encoding != 3 && encoding != 4 ==> r == body
  {
    if encoding == 3 then lib.base64Decode(body)
    else if encoding == 4 then lib.qpDecode(body)
    else body
  }

  /** The index of the last of the first `n` parts that is a text part (type 0)
      of the given subtype. */
  function LastText(parts: seq<Part>, n: nat, subtype: string): (r: Option<nat>)
    requires n <= |parts|
    ensures r.Some? ==> r.value < n && parts[r.value].ptype == 0 && parts[r.value].subtype == subtype
    ensures r.Some? ==> forall j :: r.value < j < n ==> !(parts[j].ptype == 0 && parts[j].subtype == subtype)
    ensures r.None? ==> forall j :: 0 <= j < n ==> !(parts[j].ptype == 0 && parts[j].subtype == subtype)
  {
    if n == 0 then None
    else if parts[n - 1].ptype == 0 && parts[n - 1].subtype == subtype then Some(n - 1)
    else LastText(parts, n - 1, subtype)
  }

  /** The decoded text of part number `k + 1`, or "" when there is no such part. */
  function PartText(lib: Lib, m: Message, parts: seq<Part>, k: Option<nat>): string
    requires k.Some? ==> k.value < |parts|
  {
    match k
    case Some(i) => DecodeMessageBody(lib, Section(m, i + 1), parts[i].encoding)
    case None => ""
  }

  /** The plain and HTML texts after the part loop of `get_message_body` has seen
      the first `n` parts: each text part overwrites the text of its subtype. */
  function BodyScan(lib: Lib, m: Message, parts: seq<Part>, n: nat): (plainHtml: (string, string))
    requires n <= |parts|
  {
    if n == 0 then ("", "")
    else
      var (plain, html) := BodyScan(lib, m, parts, n - 1);
      var p := parts[n - 1];
      if p.ptype == 0 then
        var text := DecodeMessageBody(lib, Section(m, n), p.encoding);
        if p.subtype == "PLAIN" then (text, html)
        else if p.subtype == "HTML" then (plain, text)
        else (plain, html)
      else (plain, html)
  }

  /** The loop keeps the LAST plain and the LAST HTML text part. */
  lemma {:induction false} BodyScanKeepsLast(lib: Lib, m: Message, parts: seq<Part>, n: nat)
    requires n <= |parts|
    ensures BodyScan(lib, m, parts, n) ==
      (PartText(lib, m, parts, LastText(parts, n, "PLAIN")), PartText(lib, m, parts, LastText(parts, n, "HTML")))
  {
    if n > 0 {
      BodyScanKeepsLast(lib, m, parts, n - 1);
    }
  }

  /** `get_message_body`: a message without parts is its whole body in the root
      encoding; otherwise a truthy HTML text (PHP's `!empty`, so "0" does not
      count) wins over the plain one. */
  function MessageBodyOf(lib: Lib, m: Message, s: Option<Part>): string {
    if s.None? then m.text
    else if s.value.parts == [] then DecodeMessageBody(lib, m.text, s.value.encoding)
    else
      var (plain, html) := BodyScan(lib, m, s.value.parts, |s.value.parts|);
      if Truthy(html) then html else plain
  }

  /** The body chosen: the last HTML part when its text is truthy, else the last
      plain part, else "". */
  lemma MessageBodySelects(lib: Lib, m: Message, s: Part)
    requires s.parts != []
    ensures var html := PartText(lib, m, s.parts, LastText(s.parts, |s.parts|, "HTML"));
      var plain := PartText(lib, m, s.parts, LastText(s.parts, |s.parts|, "PLAIN"));
      MessageBodyOf(lib, m, Some(s)) == if Truthy(html) then html else plain
  {
    BodyScanKeepsLast(lib, m, s.parts, |s.parts|);
  }

  method MessageBody(lib: Lib, m: Message, s: Option<Part>) returns (body: string)
    ensures body == MessageBodyOf(lib, m, s)
  {
    if s.None? {
      return m.text;
    }
    var parts := s.value.parts;
    if parts == [] {
      return DecodeMessageBody(lib, m.text, s.value.encoding);
    }
    body := "";
    var html := "";
    var k := 0;
    while k < |parts|
      invariant 0 <= k <= |parts|
      invariant (body, html) == BodyScan(lib, m, parts, k)
    {
      var part := parts[k];
      if part.ptype == 0 {
        var text := DecodeMessageBody(lib, Section(m, k + 1), part.encoding);
        if part.subtype == "PLAIN" {
          body := text;
        } else if part.subtype == "HTML" {
          html := text;
        }
      }
      k := k + 1;
    }
    if Truthy(html) {
      body := html;
    }
  }

  /** The text a preview is cut from: section 1, or section 2 when section 1 is
      empty, with its tags stripped (the decoding step uses the default encoding,
      so it passes the text through). */
  function PreviewSource(lib: Lib, m: Message): string {
    var first := Section(m, 1);
    var body := if Truthy(first) then first else Section(m, 2);
    lib.stripTags(DecodeMessageBody(lib, body, 0))
  }

  /** `get_message_preview`: the first 200 characters, and "..." when there were more. */
  function MessagePreview(lib: Lib, m: Message): string {
    var s := PreviewSource(lib, m);
    Take(s, 200) + if |s| > 200 then "..." else ""
  }

  /** A long text is cut to 200 characters followed by "..."; a short one is kept whole. */
  lemma PreviewCut(lib: Lib, m: Message)
    ensures var s, r := PreviewSource(lib, m), MessagePreview(lib, m);
      if |s| > 200 then |r| == 203 && r[..200] == s[..200] && r[200..] == "..." else r == s
  {
    var s, r := PreviewSource(lib, m), MessagePreview(lib, m);
    if |s| > 200 {
      assert r == s[..200] + "...";
    }
  }

  /** The list view cuts the preview to 100 characters, so it is the first 100
      characters of the stripped text and never carries the "..." marker. */
  lemma ListPreviewIsPrefix(lib: Lib, m: Message)
    ensures Take(MessagePreview(lib, m), 100) == Take(PreviewSource(lib, m), 100)
  {
    var s := PreviewSource(lib, m);
    var r := MessagePreview(lib, m);
    PreviewCut(lib, m);
    if |s| > 200 {
      assert r[..100] == r[..200][..100];
    }
  }

  // ---------------------------------------------------------------------
  // Header decoding
  // ---------------------------------------------------------------------

  /** The text of one encoded word in UTF-8: the text itself for the "default"
      charset, the converted text otherwise (section 2 of RFC 2047). */
  function WordText(lib: Lib, w: EncodedWord): string {
    if w.charset == "default" then w.text else lib.toUtf8(w.charset, w.text)
  }

  function WordsText(lib: Lib, ws: seq<EncodedWord>): string {
    if ws == [] then "" else WordsText(lib, ws[..|ws| - 1]) + WordText(lib, ws[|ws| - 1])
  }

  /** Decoding a run of words is decoding each word and joining the results. */
  lemma {:induction false} WordsTextAppend(lib: Lib, a: seq<EncodedWord>, b: seq<EncodedWord>)
    ensures WordsText(lib, a + b) == WordsText(lib, a) + WordsText(lib, b)
    decreases |b|
  {
    if b == [] {
      assert a + b == a;
    } else {
      assert (a + b)[..|a + b| - 1] == a + b[..|b| - 1];
      WordsTextAppend(lib, a, b[..|b| - 1]);
    }
  }

  /** Words that are all plain text decode to their texts, joined. */
  lemma {:induction false} WordsTextDefault(lib: Lib, ws: seq<EncodedWord>)
    requires forall k :: 0 <= k < |ws| ==> ws[k].charset == "default"
    ensures WordsText(lib, ws) == Joined(ws)
    decreases |ws|
  {
    if ws != [] {
      WordsTextDefault(lib, ws[..|ws| - 1]);
    }
  }

  function Joined(ws: seq<EncodedWord>): string {
    if ws == [] then "" else Joined(ws[..|ws| - 1]) + ws[|ws| - 1].text
  }

  /** `decode_mime_str`: "" for a falsy string, else the decoded words joined. */
  function MimeDecoded(lib: Lib, s: string): (r: string)
    ensures !Truthy(s) ==> r == ""
  {
    if !Truthy(s) then "" else WordsText(lib, lib.mimeHeaderDecode(s))
  }

  method DecodeMimeStr(lib: Lib, s: string) returns (r: string)
    ensures r == MimeDecoded(lib, s)
  {
    r := "";
    if !Truthy(s) {
      return;
    }
    var elements := lib.mimeHeaderDecode(s);
    var k := 0;
    while k < |elements|
      invariant 0 <= k <= |elements|
      invariant r == WordsText(lib, elements[..k])
    {
      assert elements[..k + 1][..k] == elements[..k];
      var e := elements[k];
      if e.charset == "default" {
        r := r + e.text;
      } else {
        r := r + lib.toUtf8(e.charset, e.text);
      }
      k := k + 1;
    }
    assert elements[..k] == elements;
  }

  /** One entry of `get_address_list`. */
  datatype AddressEntry = AddressEntry(email: string, name: string)

  /** `mailbox@host` (a missing part reads as ""), and the decoded personal name. */
  function AddressEntryOf(lib: Lib, a: Address): AddressEntry {
    AddressEntry(a.mailbox.GetOr("") + "@" + a.host.GetOr(""),
                 if a.personal.Some? then MimeDecoded(lib, a.personal.value) else "")
  }

  /** `get_address_list` */
  method AddressList(lib: Lib, addrs: seq<Address>) returns (r: seq<AddressEntry>)
    ensures |r| == |addrs|
    ensures forall k :: 0 <= k < |addrs| ==> r[k] == AddressEntryOf(lib, addrs[k])
  {
    r := [];
    var k := 0;
    while k < |addrs|
      invariant 0 <= k <= |addrs|
      invariant |r| == k
      invariant forall j :: 0 <= j < k ==> r[j] == AddressEntryOf(lib, addrs[j])
    {
      var a := addrs[k];
      var email := a.mailbox.GetOr("") + "@" + a.host.GetOr("");
      var name := "";
      if a.personal.Some? {
        name := DecodeMimeStr(lib, a.personal.value);
      }
      r := r + [AddressEntry(email, name)];
      k := k + 1;
    }
  }

  // ---------------------------------------------------------------------
  // The message list
  // ---------------------------------------------------------------------

  /** The rank of each flag in the list. */
  function FlagRank(f: string): nat {
    if f == "flagged" then 0 else if f == "answered" then 1 else 2
  }

  predicate FlagSet(v: Option<string>) { v.Some? && Truthy(v.value) }

  /** The flags block: "flagged", "answered", "seen", each when its header value
      is set and truthy, in that order. */
  function Flags(h: Header): seq<string> {
    (if FlagSet(h.flagged) then ["flagged"] else []) +
    (if FlagSet(h.answered) then ["answered"] else []) +
    (if FlagSet(h.seen) then ["seen"] else [])
  }

  /** Each flag is listed exactly when it is set, nothing else is listed, and the
      order is flagged, answered, seen. */
  lemma FlagsListed(h: Header)
    ensures var r := Flags(h);
      ("flagged" in r <==> FlagSet(h.flagged)) &&
      ("answered" in r <==> FlagSet(h.answered)) &&
      ("seen" in r <==> FlagSet(h.seen)) &&
      (forall f :: f in r ==> f in ["flagged", "answered", "seen"]) &&
      (forall i, j :: 0 <= i < j < |r| ==> FlagRank(r[i]) < FlagRank(r[j]))
  {
  }

  /** One message of the list `fetch_emails` returns. */
  datatype Summary = Summary(uid: nat, subject: string, from: string, fromName: string, date: string,
                             hasAttachments: bool, size: nat, flags: seq<string>, preview: string)

  /** The sender's `mailbox@host`, when the header names both. */
  function SenderOf(h: Header): string {
    if |h.from| > 0 && h.from[0].mailbox.Some? && h.from[0].host.Some?
    then h.from[0].mailbox.value + "@" + h.from[0].host.value
    else ""
  }

  /** The list entry of a message whose header could be fetched. */
  function SummaryOf(lib: Lib, m: Message, h: Header): Summary {
    Summary(m.uid,
            if h.subject.Some? then MimeDecoded(lib, h.subject.value) else "",
            SenderOf(h),
            if |h.from| > 0 && h.from[0].personal.Some? then MimeDecoded(lib, h.from[0].personal.value) else "",
            lib.formatDateTime(h.date),
            HasAttachments(m.structure),
            h.size,
            Flags(h),
            Take(MessagePreview(lib, m), 100))
  }

  /** The entry for message number i: none when its header fetch fails. */
  function EntryAt(lib: Lib, msgs: seq<Message>, i: int): seq<Summary> {
    match HeaderAt(msgs, i)
    case Some(h) => [SummaryOf(lib, msgs[i - 1], h)]
    case None => []
  }

  function SummariesOf(lib: Lib, msgs: seq<Message>, nums: seq<int>): seq<Summary> {
    if nums == [] then [] else SummariesOf(lib, msgs, nums[..|nums| - 1]) + EntryAt(lib, msgs, nums[|nums| - 1])
  }

  /** The numbers among `nums` whose header can be fetched. */
  function Kept(msgs: seq<Message>, nums: seq<int>): (r: seq<int>)
    ensures forall j :: 0 <= j < |r| ==> r[j] in nums && HeaderAt(msgs, r[j]).Some?
  {
    if nums == [] then []
    else Kept(msgs, nums[..|nums| - 1]) + (if HeaderAt(msgs, nums[|nums| - 1]).Some? then [nums[|nums| - 1]] else [])
  }

  predicate StrictlyDescending(xs: seq<int>) {
    forall i, j :: 0 <= i < j < |xs| ==> xs[i] > xs[j]
  }

  /** The entries of `nums`, in order, each number contributing `entry(n)`. */
  function Gathered<T>(nums: seq<int>, entry: int -> seq<T>): seq<T> {
    if nums == [] then [] else Gathered(nums[..|nums| - 1], entry) + entry(nums[|nums| - 1])
  }

  /** The numbers among `nums` that contribute one entry. */
  function Singles<T>(nums: seq<int>, entry: int -> seq<T>): seq<int> {
    if nums == [] then []
    else Singles(nums[..|nums| - 1], entry) + (if |entry(nums[|nums| - 1])| == 1 then [nums[|nums| - 1]] else [])
  }

  /** When every number contributes at most one entry, entry j of the joined list
      is the one contributed by the j-th contributing number. */
  lemma {:induction false} GatheredSingles<T>(nums: seq<int>, entry: int -> seq<T>)
    requires forall n :: |entry(n)| <= 1
    ensures |Gathered(nums, entry)| == |Singles(nums, entry)|
    ensures forall j :: 0 <= j < |Singles(nums, entry)| ==> entry(Singles(nums, entry)[j]) == [Gathered(nums, entry)[j]]
    decreases |nums|
  {
    if nums != [] {
      var init, last := nums[..|nums| - 1], nums[|nums| - 1];
      GatheredSingles(init, entry);
      var list, ks := Gathered(init, entry), Singles(init, entry);
      var list', ks' := Gathered(nums, entry), Singles(nums, entry);
      if |entry(last)| == 1 {
        assert list' == list + entry(last) && ks' == ks + [last];
        forall j | 0 <= j < |ks'| ensures entry(ks'[j]) == [list'[j]] {
          if j < |ks| {
            assert ks'[j] == ks[j] && list'[j] == list[j];
          } else {
            assert entry(last) == [entry(last)[0]];
          }
        }
      } else {
        assert entry(last) == [];
        assert list' == list + [] && ks' == ks + [];
      }
    }
  }

  /** The list entry of each message number, as a function. */
  function EntryOf(lib: Lib, msgs: seq<Message>): int -> seq<Summary> {
    i => EntryAt(lib, msgs, i)
  }

  lemma {:induction false} SummariesGathered(lib: Lib, msgs: seq<Message>, nums: seq<int>)
    ensures SummariesOf(lib, msgs, nums) == Gathered(nums, EntryOf(lib, msgs))
    ensures Kept(msgs, nums) == Singles(nums, EntryOf(lib, msgs))
    decreases |nums|
  {
    if nums != [] {
      SummariesGathered(lib, msgs, nums[..|nums| - 1]);
      assert |EntryAt(lib, msgs, nums[|nums| - 1])| == 1 <==> HeaderAt(msgs, nums[|nums| - 1]).Some?;
    }
  }

  /** The list holds one entry per number whose header could be fetched, in the
      order visited: entry j is the summary of the j-th such number, and the other
      numbers are skipped. */
  lemma SummariesSkipFailed(lib: Lib, msgs: seq<Message>, nums: seq<int>)
    ensures |SummariesOf(lib, msgs, nums)| == |Kept(msgs, nums)|
    ensures forall j :: 0 <= j < |Kept(msgs, nums)| ==> EntryAt(lib, msgs, Kept(msgs, nums)[j]) == [SummariesOf(lib, msgs, nums)[j]]
  {
    var entry := EntryOf(lib, msgs);
    forall n ensures |entry(n)| <= 1 {
    }
    SummariesGathered(lib, msgs, nums);
    GatheredSingles(nums, entry);
  }

  /** Every number whose header can be fetched is kept. */
  lemma {:induction false} KeptComplete(msgs: seq<Message>, nums: seq<int>, n: int)
    requires n in nums && HeaderAt(msgs, n).Some?
    ensures n in Kept(msgs, nums)
    decreases |nums|
  {
    var init, last := nums[..|nums| - 1], nums[|nums| - 1];
    if n != last {
      assert n in init by {
        var i :| 0 <= i < |nums| && nums[i] == n;
        assert init[i] == n;
      }
      KeptComplete(msgs, init, n);
    }
  }

  /** Skipping numbers keeps the newest-first order of the rest. */
  lemma {:induction false} KeptDescending(msgs: seq<Message>, nums: seq<int>)
    requires StrictlyDescending(nums)
    ensures StrictlyDescending(Kept(msgs, nums))
    decreases |nums|
  {
    if nums != [] {
      var init := nums[..|nums| - 1];
      var last := nums[|nums| - 1];
      assert StrictlyDescending(init);
      KeptDescending(msgs, init);
      var ks := Kept(msgs, init);
      forall j | 0 <= j < |ks| ensures ks[j] > last {
        var i :| 0 <= i < |init| && init[i] == ks[j];
      }
    }
  }

  /** The numbers `hi, hi - 1, …, lo`. */
  function Descending(hi: int, lo: int): (r: seq<int>)
    ensures |r| == if hi < lo then 0 else hi - lo + 1
    ensures forall i :: 0 <= i < |r| ==> r[i] == hi - i
    decreases hi - lo + 1
  {
    if hi < lo then [] else Descending(hi, lo + 1) + [lo]
  }

  /** The first and last message numbers, oldest first, that page `page` of `k`
      messages covers in a folder of `n`, newest first: `(start_rev, end_rev)`. */
  function Window(n: nat, k: nat, page: int): (lohi: (int, int)) {
    var start := (page - 1) * k + 1;
    var end := Min(start + k - 1, n);
    (Max(n - end + 1, 1), n - start + 1)
  }

  /** The message numbers the loop of `fetch_emails` visits, in order. */
  function Visited(n: nat, k: nat, page: int): seq<int> {
    Descending(Window(n, k, page).1, Window(n, k, page).0)
  }

  /** `ceil($total / $per_page)` */
  function TotalPages(n: nat, k: nat): nat
    requires k >= 1
  {
    (n + k - 1) / k
  }

  lemma MulMono(a: int, b: int, k: int)
    requires a <= b && 0 <= k
    ensures a * k <= b * k
  {
  }

  /** q is the quotient of t by k exactly when q*k <= t < (q+1)*k. */
  lemma DivUnique(t: nat, k: nat, q: int)
    requires k >= 1
    ensures q * k <= t < q * k + k <==> t / k == q
  {
    var d := t / k;
    assert d * k <= t < d * k + k;
    if q * k <= t < q * k + k && d != q {
      if d < q {
        MulMono(d + 1, q, k);
      } else {
        MulMono(q + 1, d, k);
      }
    }
  }

  /** Page `p` visits message m, 1 <= m <= n, exactly when p is the page m belongs
      to, newest first. So the pages are disjoint and together cover the folder. */
  lemma VisitedPartition(n: nat, k: nat, page: int, m: int)
    requires k >= 1 && 1 <= m <= n
    ensures m in Visited(n, k, page) <==> page == (n - m) / k + 1
  {
    var (lo, hi) := Window(n, k, page);
    var t, q := n - m, page - 1;
    assert (m in Visited(n, k, page)) <==> lo <= m <= hi by {
      var v := Visited(n, k, page);
      if lo <= m <= hi {
        assert v[hi - m] == m;
      }
    }
    assert q * k + k == (page - 1) * k + k;
    DivUnique(t, k, q);
  }

  /** Every message belongs to one of the pages 1 .. total_pages. */
  lemma PageOfInRange(n: nat, k: nat, m: int)
    requires k >= 1 && 1 <= m <= n
    ensures 1 <= (n - m) / k + 1 <= TotalPages(n, k)
  {
    var q := (n - m) / k;
    assert q * k <= n - m;
    DivUnique(n + k - 1, k, TotalPages(n, k));
    if q + 1 > TotalPages(n, k) {
      MulMono(TotalPages(n, k) + 1, q + 1, k);
    }
  }

  /** For a page in range the loop visits numbers within the folder, strictly
      newest first, at most `k` of them; page 1 starts at the newest message. */
  lemma VisitedInRange(n: nat, k: nat, page: int)
    requires k >= 1 && 1 <= page
    ensures forall x :: x in Visited(n, k, page) ==> 1 <= x <= n
    ensures StrictlyDescending(Visited(n, k, page))
    ensures |Visited(n, k, page)| <= k
    ensures page == 1 && n >= 1 ==> Visited(n, k, page)[0] == n
  {
    MulMono(0, page - 1, k);
  }

  /** A page beyond the last visits nothing. */
  lemma VisitedBeyondLast(n: nat, k: nat, page: int)
    requires k >= 1 && page > TotalPages(n, k)
    ensures Visited(n, k, page) == []
  {
    DivUnique(n + k - 1, k, TotalPages(n, k));
    MulMono(TotalPages(n, k), page - 1, k);
  }

  /** What `fetch_emails` returns; `error` is present only when the folder could
      not be opened. */
  datatype FetchResult = FetchResult(messages: seq<Summary>, total: nat, page: int, perPage: nat,
                                     totalPages: nat, error: Option<string>)

  function FetchOf(lib: Lib, box: Mailbox, folder: string, page: int, perPage: nat): FetchResult
    requires perPage >= 1
  {
    if folder !in box.folders then
      FetchResult([], 0, page, perPage, 0, Some("Failed to open folder: " + box.lastError))
    else
      var msgs := box.folders[folder];
      if |msgs| == 0 then FetchResult([], 0, page, perPage, 0, None)
      else FetchResult(SummariesOf(lib, msgs, Visited(|msgs|, perPage, page)), |msgs|, page, perPage,
                       TotalPages(|msgs|, perPage), None)
  }

  /** `fetch_emails`: newest first, skipping messages whose header fails. */
  method FetchEmails(lib: Lib, box: Mailbox, folder: string, page: int, perPage: nat) returns (r: FetchResult)
    requires perPage >= 1
    ensures r == FetchOf(lib, box, folder, page, perPage)
  {
    if folder !in box.folders {
      return FetchResult([], 0, page, perPage, 0, Some("Failed to open folder: " + box.lastError));
    }
    var msgs := box.folders[folder];
    var total := |msgs|;
    if total == 0 {
      return FetchResult([], 0, page, perPage, 0, None);
    }
    var start := (page - 1) * perPage + 1;
    var end := Min(start + perPage - 1, total);
    var startRev := Max(total - end + 1, 1);
    var endRev := total - start + 1;
    assert Window(total, perPage, page) == (startRev, endRev);
    var emails := CollectPage(lib, msgs, startRev, endRev);
    return FetchResult(emails, total, page, perPage, TotalPages(total, perPage), None);
  }

  lemma SummariesStep(lib: Lib, msgs: seq<Message>, hi: int, i: int)
    requires i <= hi
    ensures SummariesOf(lib, msgs, Descending(hi, i)) == SummariesOf(lib, msgs, Descending(hi, i + 1)) + EntryAt(lib, msgs, i)
  {
    var d := Descending(hi, i);
    assert d[..|d| - 1] == Descending(hi, i + 1);
  }

  /** The loop of `fetch_emails` from message `hi` down to message `lo`. */
  method CollectPage(lib: Lib, msgs: seq<Message>, lo: int, hi: int) returns (emails: seq<Summary>)
    ensures emails == SummariesOf(lib, msgs, Descending(hi, lo))
  {
    emails := [];
    var i := hi;
    while i >= lo
      invariant i <= hi
      invariant lo - 1 <= i || i == hi
      invariant emails == SummariesOf(lib, msgs, Descending(hi, i + 1))
      decreases i - lo + 1
    {
      SummariesStep(lib, msgs, hi, i);
      var entry := Entry(lib, msgs, i);
      emails := emails + entry;
      i := i - 1;
    }
  }

  /** One pass of the loop body: the entry of message `i`, or nothing when its
      header cannot be fetched (`continue`). */
  method Entry(lib: Lib, msgs: seq<Message>, i: int) returns (entry: seq<Summary>)
    ensures entry == EntryAt(lib, msgs, i)
  {
    var header := HeaderAt(msgs, i);
    if header.Some? {
      entry := [SummaryOf(lib, msgs[i - 1], header.value)];
    } else {
      entry := [];
    }
  }

  /** A folder that cannot be opened, an empty folder and a page beyond the last
      all give no messages. */
  lemma FetchNothing(lib: Lib, box: Mailbox, folder: string, page: int, perPage: nat)
    requires perPage >= 1
    ensures folder !in box.folders ==>
      FetchOf(lib, box, folder, page, perPage).messages == [] && FetchOf(lib, box, folder, page, perPage).error.Some?
    ensures folder in box.folders && box.folders[folder] == [] ==>
      var r := FetchOf(lib, box, folder, page, perPage);
      r.messages == [] && r.total == 0 && r.totalPages == 0 && r.error.None?
    ensures folder in box.folders && page > TotalPages(|box.folders[folder]|, perPage) ==>
      FetchOf(lib, box, folder, page, perPage).messages == []
  {
    if folder in box.folders && page > TotalPages(|box.folders[folder]|, perPage) {
      VisitedBeyondLast(|box.folders[folder]|, perPage, page);
    }
  }

  /** The entry of a message whose header can be fetched carries its UID. */
  lemma EntryUid(lib: Lib, msgs: seq<Message>, i: int, x: Summary)
    requires EntryAt(lib, msgs, i) == [x]
    ensures 1 <= i <= |msgs| && x.uid == msgs[i - 1].uid
  {
  }

  /** The list built from strictly descending numbers: no longer than they are,
      each entry that of one of them, every number with a header listed, and with
      ascending UIDs the UIDs descend. */
  lemma ListedEntries(lib: Lib, msgs: seq<Message>, nums: seq<int>)
    requires StrictlyDescending(nums)
    ensures var xs := SummariesOf(lib, msgs, nums);
      |xs| <= |nums| &&
      (forall j :: 0 <= j < |xs| ==> exists i :: i in nums && EntryAt(lib, msgs, i) == [xs[j]]) &&
      (forall i :: i in nums && HeaderAt(msgs, i).Some? ==> exists j :: 0 <= j < |xs| && EntryAt(lib, msgs, i) == [xs[j]]) &&
      (UidsAscending(msgs) ==> forall j, k :: 0 <= j < k < |xs| ==> xs[j].uid > xs[k].uid)
  {
    var xs, ks := SummariesOf(lib, msgs, nums), Kept(msgs, nums);
    SummariesSkipFailed(lib, msgs, nums);
    KeptDescending(msgs, nums);
    StrictlyDescendingShorter(ks, nums);
    forall i | i in nums && HeaderAt(msgs, i).Some?
      ensures exists j :: 0 <= j < |xs| && EntryAt(lib, msgs, i) == [xs[j]]
    {
      KeptComplete(msgs, nums, i);
      var j :| 0 <= j < |ks| && ks[j] == i;
    }
    if UidsAscending(msgs) {
      forall j, k | 0 <= j < k < |xs| ensures xs[j].uid > xs[k].uid {
        EntryUid(lib, msgs, ks[j], xs[j]);
        EntryUid(lib, msgs, ks[k], xs[k]);
      }
    }
  }

  /** Message `i` of a folder of `n` belongs to page `page`. */
  predicate OnPage(n: nat, k: nat, page: int, i: int)
    requires k >= 1
  {
    1 <= i <= n && (n - i) / k + 1 == page
  }

  /** `xs` lists at most `k` entries; each is the entry of a message on the page,
      every message on the page whose header can be fetched is listed, and with
      ascending UIDs the list is newest first. */
  ghost predicate PageListed(lib: Lib, msgs: seq<Message>, k: nat, page: int, xs: seq<Summary>)
    requires k >= 1
  {
    |xs| <= k &&
    (forall j :: 0 <= j < |xs| ==> exists i :: OnPage(|msgs|, k, page, i) && EntryAt(lib, msgs, i) == [xs[j]]) &&
    (forall i :: OnPage(|msgs|, k, page, i) && HeaderAt(msgs, i).Some? ==>
       exists j :: 0 <= j < |xs| && EntryAt(lib, msgs, i) == [xs[j]]) &&
    (UidsAscending(msgs) ==> forall j, j' :: 0 <= j < j' < |xs| ==> xs[j].uid > xs[j'].uid)
  }

  /** The entries a page's loop gathers are those of the messages on the page. */
  lemma PageEntries(lib: Lib, msgs: seq<Message>, k: nat, page: int, xs: seq<Summary>)
    requires k >= 1 && 1 <= page
    requires xs == SummariesOf(lib, msgs, Visited(|msgs|, k, page))
    ensures PageListed(lib, msgs, k, page, xs)
  {
    var nums := Visited(|msgs|, k, page);
    VisitedInRange(|msgs|, k, page);
    ListedEntries(lib, msgs, nums);
    forall i ensures i in nums <==> OnPage(|msgs|, k, page, i) {
      if 1 <= i <= |msgs| {
        VisitedPartition(|msgs|, k, page, i);
      }
    }
  }

  /** A page of a non-empty folder reports the folder's size and page count and
      lists at most `per_page` messages: each listed entry is that of a message on
      the page, every message on the page whose header can be fetched is listed,
      and with ascending UIDs the list is newest first. */
  lemma FetchPageListed(lib: Lib, box: Mailbox, folder: string, page: int, perPage: nat)
    requires perPage >= 1 && 1 <= page
    requires folder in box.folders && box.folders[folder] != []
    ensures var msgs, r := box.folders[folder], FetchOf(lib, box, folder, page, perPage);
      r.error.None? && r.total == |msgs| && r.totalPages == TotalPages(|msgs|, perPage) &&
      PageListed(lib, msgs, perPage, page, r.messages)
  {
    var msgs := box.folders[folder];
    PageEntries(lib, msgs, perPage, page, FetchOf(lib, box, folder, page, perPage).messages);
  }

  /** A strictly descending list drawn from another strictly descending list is no longer. */
  lemma {:induction false} StrictlyDescendingShorter(xs: seq<int>, ys: seq<int>)
    requires StrictlyDescending(xs) && StrictlyDescending(ys)
    requires forall j :: 0 <= j < |xs| ==> xs[j] in ys
    ensures |xs| <= |ys|
    decreases |ys|
  {
    if xs != [] {
      assert xs[0] in ys;
      var y, last := ys[|ys| - 1], xs[|xs| - 1];
      var xs' := if last == y then xs[..|xs| - 1] else xs;
      assert last >= y by {
        var i :| 0 <= i < |ys| && ys[i] == last;
      }
      forall j | 0 <= j < |xs'| ensures xs'[j] in ys[..|ys| - 1] {
        assert xs'[j] == xs[j];
        assert xs'[j] > y by {
          if last == y {
            assert j < |xs| - 1;
          } else {
            var i :| 0 <= i < |ys| && ys[i] == last;
            assert i < |ys| - 1;
          }
        }
        var i :| 0 <= i < |ys| && ys[i] == xs'[j];
        assert ys[..|ys| - 1][i] == xs'[j];
      }
      StrictlyDescendingShorter(xs', ys[..|ys| - 1]);
    }
  }

  // ---------------------------------------------------------------------
  // A single message
  // ---------------------------------------------------------------------

  /** What `get_email_by_id` returns. */
  datatype FullEmail = FullEmail(uid: nat, subject: string, from: string, fromName: string,
                                 to: seq<AddressEntry>, cc: seq<AddressEntry>, date: string, body: string,
                                 attachments: seq<Attachment>)

  /** The header read when the fetch failed: every property unset. */
  const NoHeader := Header(None, [], [], None, "", 0, None, None, None)

  /** The `from` of a full email: PHP joins the first sender's mailbox and host
      with '@' and reads a missing part as "", so a header without a sender gives "@". */
  function FromAddress(h: Header): (r: string)
    ensures |h.from| == 0 ==> r == "@"
    ensures |h.from| > 0 ==> r == h.from[0].mailbox.GetOr("") + "@" + h.from[0].host.GetOr("")
    ensures h.from != [] && h.from[0].mailbox.Some? && h.from[0].host.Some? ==> r == SenderOf(h)
  {
    if |h.from| > 0 then h.from[0].mailbox.GetOr("") + "@" + h.from[0].host.GetOr("") else "@"
  }

  /** `get_email_by_id` once the account's inbox is open (`inbox` is the error of
      a missing account or a failed connection, returned as it is). */
  method EmailById(lib: Lib, inbox: Result<seq<Message>>, emailId: nat) returns (r: Result<FullEmail>)
    ensures inbox.Err? ==> r == Err(inbox.code, inbox.message)
    ensures inbox.Ok? ==> (r.Err? <==> MsgNo(inbox.value, emailId, 0) == 0)
    ensures r.Err? && inbox.Ok? ==> r == Err("email_not_found", "Email not found.")
    ensures r.Ok? ==>
      var m := inbox.value[MsgNo(inbox.value, emailId, 0) - 1];
      var h := m.header.GetOr(NoHeader);
      r.value.uid == emailId && m.uid == emailId &&
      r.value.subject == MimeDecoded(lib, h.subject.GetOr("")) &&
      r.value.from == FromAddress(h) &&
      r.value.fromName == (if |h.from| > 0 && h.from[0].personal.Some? then MimeDecoded(lib, h.from[0].personal.value) else "") &&
      |r.value.to| == |h.to| && (forall k :: 0 <= k < |h.to| ==> r.value.to[k] == AddressEntryOf(lib, h.to[k])) &&
      (h.cc.None? ==> r.value.cc == []) &&
      (h.cc.Some? ==> |r.value.cc| == |h.cc.value| && forall k :: 0 <= k < |h.cc.value| ==> r.value.cc[k] == AddressEntryOf(lib, h.cc.value[k])) &&
      r.value.date == lib.formatDateTime(h.date) &&
      r.value.body == MessageBodyOf(lib, m, m.structure) &&
      r.value.attachments == (if m.structure.Some? then AttachmentsOf(lib, m.structure.value.parts, |m.structure.value.parts|) else [])
  {
    if inbox.Err? {
      return Err(inbox.code, inbox.message);
    }
    var msgs := inbox.value;
    var n := MsgNo(msgs, emailId, 0);
    if n == 0 {
      return Err("email_not_found", "Email not found.");
    }
    var m := msgs[n - 1];
    var h := m.header.GetOr(NoHeader);
    var body := MessageBody(lib, m, m.structure);
    var attachments := Attachments(lib, m.structure);
    var subject := DecodeMimeStr(lib, h.subject.GetOr(""));
    var from := FromAddress(h);
    var fromName := "";
    if |h.from| > 0 && h.from[0].personal.Some? {
      fromName := DecodeMimeStr(lib, h.from[0].personal.value);
    }
    var to := AddressList(lib, h.to);
    var cc: seq<AddressEntry> := [];
    if h.cc.Some? {
      cc := AddressList(lib, h.cc.value);
    }
    return Ok(FullEmail(emailId, subject, from, fromName, to, cc, lib.formatDateTime(h.date), body, attachments));
  }
}
