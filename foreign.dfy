/** The PHP, IMAP and WordPress library functions the core calls but does not
    define. They are uninterpreted: the model receives them as a record of total
    functions and states its properties for every choice of them. */
module Foreign {
  import opened Text

  /** One element of `imap_mime_header_decode`'s result (section 2 of RFC 2047):
      a run of text and its declared charset, "default" when it was not encoded. */
  datatype EncodedWord = EncodedWord(charset: string, text: string)

  datatype Lib = Lib(
    /** `base64_decode` (section 6.8 of RFC 2045) */
    base64Decode: string -> string,
    /** `quoted_printable_decode` (section 6.7 of RFC 2045) */
    qpDecode: string -> string,
    /** `strip_tags` */
    stripTags: string -> string,
    /** `html_entity_decode` */
    htmlEntityDecode: string -> string,
    /** `imap_mime_header_decode` */
    mimeHeaderDecode: string -> seq<EncodedWord>,
    /** `iconv($charset, 'UTF-8', $text)`, a failure read as "" */
    toUtf8: (string, string) -> string,
    /** `date('Y-m-d H:i:s', strtotime($s))` */
    formatDateTime: string -> string,
    /** `strtotime($s)`, in seconds */
    strToTime: string -> int,
    /** `json_decode($s, true)` of a stored source record: its string members, or null */
    jsonDecode: string -> Option<map<string, string>>,
    /** `sanitize_text_field` on a string */
    sanitizeText: string -> string
  )
}
