/**
 The outcome of multipart parsing (`req.form_data()`) and of reading a file
 part (`file.bytes()`), both foreign asynchronous I/O, given here as values.
 */
module Form {
  import opened Wrappers

  /** What `file.bytes().await` yields: the bytes, or the read error. */
  datatype FileRead = Read(bytes: seq<byte>) | ReadError(message: string)

  /** `FormEntry`: a file part or a plain text field. */
  datatype FormEntry = File(contents: FileRead) | Field(text: string)

  /** `req.form_data().await`: the parsed entries by key, or a parse failure. */
  datatype FormParse = Parsed(entries: map<string, FormEntry>) | ParseError

  /** `form.get(key)`. */
  function Lookup(entries: map<string, FormEntry>, key: string): Option<FormEntry>
  {
    if key in entries then Some(entries[key]) else None
  }
}
