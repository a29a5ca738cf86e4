/**
 * The browser `FormData` object the services fill in place with `append`
 * before posting it.
 */
module FormDataModel {

  /** A `Blob` of bytes with its declared MIME type, or a plain text field. */
  datatype FormValue = Text(text: string) | Blob(bytes: seq<bv8>, mimeType: string)

  datatype Entry = Entry(name: string, value: FormValue)

  class FormData {
    /** The appended fields, oldest first. */
    var entries: seq<Entry>

    constructor ()
      ensures entries == []
    {
      entries := [];
    }

    /** `append` keeps every earlier field, including ones with the same name. */
    method Append(name: string, value: FormValue)
      modifies this
      ensures entries == old(entries) + [Entry(name, value)]
    {
      entries := entries + [Entry(name, value)];
    }
  }
}
