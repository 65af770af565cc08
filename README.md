# TextAmerica4J request layer, modelled in Dafny

TextAmerica4J is a Java client for the TextAmerica moblog service's XML-RPC
API. Each public operation builds a positional parameter vector. The vector
always starts with the API key, login and password, followed by the
operation's own arguments in declaration order. The operation sends the
vector under a fixed procedure identifier such as `ta.Moblog.Update` to the
endpoint `http://xml.api.textamerica.com`, then casts the untyped reply to
the declared result type. Every operation except the two listings has two
overloads: one with boxed `Integer` arguments that does the work, and one
with primitive `int` (and `char`) arguments that boxes them and delegates. `entryUpdate` also reads an
image file through an 8192-byte buffer, base64-encodes it and sends the text.

The model is split into these modules:

- `Wire`: parameter and reply values. `Option` models a nullable Java
  reference; a null argument is stored in the vector as a null.
- `Procedures`: the procedure identifiers and each procedure's positional
  signature.
- `Requests`: the parameter vector each operation sends, as a function of
  its arguments, and the lemmas about it.
- `Coercion`: the result casts as fallible narrowings.
- `Upload`: the chunked read loop of `entryUpdate`, over a stream class, a
  byte-sink class and a fixed-size `array` buffer.
- `TextAmerica`: the client class. Its methods build the vector step by
  step, as the source does. Each method is proved to send exactly the call
  the `Requests` specification describes, and to return the cast the
  `Coercion` functions describe.

The remote transport is a function-typed constant of the client, fixed at
construction: it maps a call to its reply. The Base64 encoder is one too.
Nothing is assumed about either.

## Model

| member | source | states |
|---|---|---|
| Procedures.WireName | src/com/textamerica/TextAmerica4J.java:58-85 | Every procedure identifier the client sends lies in the service's `ta.` namespace; the table lists each constant byte for byte. |
| Procedures.WireNameInjective | src/com/textamerica/TextAmerica4J.java:58-85 | The identifier table is one-to-one: two procedures sent under the same identifier are the same procedure. |
| Procedures.OnlyCommunityListingIsVariadic | src/com/textamerica/TextAmerica4J.java:159-169 | Of all procedures only the community listing has an argument that may be left out; any conforming argument list of every other procedure has exactly its declared arity. |
| Requests.BlankMeansEmpty | src/com/textamerica/TextAmerica4J.java:113-115 | `checkNullOrBlank` holds exactly for null and for the empty string; a string of white space is not blank. |
| Requests.ArgumentsConform | src/com/textamerica/TextAmerica4J.java:139-1128 | Each operation's arguments fit, position by position, the declared Java types of its procedure (Integer slots hold an int or null, String slots a string or null), and only the community filter may be omitted, never sent empty. |
| Requests.CredentialsComeFirst | src/com/textamerica/TextAmerica4J.java:122-130 | Every call's parameter vector begins with API key, login and password in that order, followed by exactly the operation's own arguments; every operation except the community listing sends three plus its arity. |
| Requests.CommunityFilterOmission | src/com/textamerica/TextAmerica4J.java:159-169 | The community filter is appended if and only if it is neither null nor empty, then unchanged as the fourth and last parameter; otherwise the call carries the credentials alone. |
| Requests.UpdateFlagsAreOneCharStrings | src/com/textamerica/TextAmerica4J.java:236-239 | The `char` approval and comment flags of the primitive `update` reach the wire as one-character strings holding that character. |
| Requests.UpdateLayout | src/com/textamerica/TextAmerica4J.java:195-210 | `update` invokes `ta.Moblog.Update` with ten parameters: credentials, moblog id, domain, secret word, title, description, approval type, comment flag, with null arguments kept as nulls. |
| Requests.EntryUpdateLayout | src/com/textamerica/TextAmerica4J.java:437-469 | `entryUpdate` invokes `ta.Entry.Update` with ten parameters: credentials, the five entry fields, the encoded image second to last and the file type last. |
| Requests.UpdateExample | src/com/textamerica/TextAmerica4J.java:236-239 | The call `update(42, "foo", "bar", "T", "D", 'C', 'Y')` sends exactly the credentials followed by 42, "foo", "bar", "T", "D", "C", "Y" to `ta.Moblog.Update`. |
| Coercion.AsVector | src/com/textamerica/TextAmerica4J.java:144 | The `(Vector)` cast succeeds if and only if the value is an XML-RPC array; otherwise it is a coercion error. |
| Coercion.AsString | src/com/textamerica/TextAmerica4J.java:209 | The `(String)` cast succeeds if and only if the value is an XML-RPC string; otherwise it is a coercion error. |
| Coercion.VectorResult | src/com/textamerica/TextAmerica4J.java:139-145 | A list-returning call succeeds exactly when the reply is an array and then yields its items in order; a fault becomes a transport error carrying its code and message; any other value is a coercion error. |
| Coercion.StringResult | src/com/textamerica/TextAmerica4J.java:195-210 | An identifier-returning call succeeds exactly when the reply is a string and then yields it; a fault becomes a transport error; any other value is a coercion error. |
| Coercion.ObjectResult | src/com/textamerica/TextAmerica4J.java:600-609 | A favorites call yields the returned value uncast whenever the call does not fault; a fault becomes a transport error. |
| Coercion.NarrowingInvertsEmbedding | src/com/textamerica/TextAmerica4J.java:144 | Casting a value succeeds with a given list or string if and only if the value is that array or that string. |
| Upload.FlattenAppend | src/com/textamerica/TextAmerica4J.java:452-454 | Writing the bytes of one more read to the buffer extends its content by exactly those bytes. |
| Upload.FlattenBounds | src/com/textamerica/TextAmerica4J.java:451-454 | Each read delivers between 1 and 8192 bytes, so the collected content is at least as long as the number of reads and at most 8192 times it. |
| Upload.FlattenPlacesChunk | src/com/textamerica/TextAmerica4J.java:452-454 | Byte k of the j-th read lands at the offset of all earlier reads plus k: bytes are neither reordered nor dropped. |
| Upload.ChunkStream.constructor | src/com/textamerica/TextAmerica4J.java:449 | A fresh buffered stream is positioned at the start of the file. |
| Upload.ChunkStream.Read | src/com/textamerica/TextAmerica4J.java:452 | A read copies the next piece of the file into the front of the buffer and returns its length; at the end it returns -1, or throws when the file cannot be read to the end. |
| Upload.ByteSink.constructor | src/com/textamerica/TextAmerica4J.java:448 | The output buffer starts empty. |
| Upload.ByteSink.Write | src/com/textamerica/TextAmerica4J.java:453 | `write(temp, 0, n)` appends exactly the first n bytes of the buffer. |
| Upload.ByteSink.ToByteArray | src/com/textamerica/TextAmerica4J.java:459 | `toByteArray` returns everything written so far. |
| Upload.ReadImage | src/com/textamerica/TextAmerica4J.java:447-459 | Reading the image yields the whole file content in order; a file that cannot be opened or read is an I/O error. |
| TextAmerica.TextAmerica4J.constructor | src/com/textamerica/TextAmerica4J.java:100-105 | The client keeps the API key, login and password it was given, stores the given transport, and records the fixed service endpoint `http://xml.api.textamerica.com` as the one that transport was created for. |
| TextAmerica.TextAmerica4J.PrepareDefaultRequestParameters | src/com/textamerica/TextAmerica4J.java:122-130 | The default vector holds exactly three parameters: API key, login and password, in that order, with nulls kept. |
| TextAmerica.TextAmerica4J.Execute | src/com/textamerica/TextAmerica4J.java:142 | The transport receives the given procedure name and parameter vector unchanged, and its reply is handed back. |
| TextAmerica.TextAmerica4J.GetMyMoblogs | src/com/textamerica/TextAmerica4J.java:139-145 | Sends the credentials alone to `ta.Moblog.GetMyMoblogs` and returns the reply cast to a list. |
| TextAmerica.TextAmerica4J.GetCommunityMoblogs | src/com/textamerica/TextAmerica4J.java:159-169 | Sends the credentials, plus the filter when it is not null or empty, to `ta.Moblog.GetCommunityMoblogs` (three or four parameters) and returns the reply cast to a list. |
| TextAmerica.TextAmerica4J.Update | src/com/textamerica/TextAmerica4J.java:195-210 | Sends the credentials and the seven moblog fields in order to `ta.Moblog.Update` and returns the reply cast to a string. |
| TextAmerica.TextAmerica4J.UpdatePrimitive | src/com/textamerica/TextAmerica4J.java:236-239 | Boxes the id and turns each `char` flag into a one-character string, then makes the same call as the boxed `update`. |
| TextAmerica.TextAmerica4J.ChangeTitle | src/com/textamerica/TextAmerica4J.java:255-264 | Sends the credentials followed by the moblog id and title to `ta.Moblog.ChangeTitle` and returns the reply cast to a string. |
| TextAmerica.TextAmerica4J.ChangeTitlePrimitive | src/com/textamerica/TextAmerica4J.java:280-282 | Boxes the primitive arguments and makes the same call as the boxed overload. |
| TextAmerica.TextAmerica4J.ChangeText | src/com/textamerica/TextAmerica4J.java:298-307 | Sends the credentials followed by the moblog id and text to `ta.Moblog.ChangeText` and returns the reply cast to a string. |
| TextAmerica.TextAmerica4J.ChangeTextPrimitive | src/com/textamerica/TextAmerica4J.java:323-325 | Boxes the primitive arguments and makes the same call as the boxed overload. |
| TextAmerica.TextAmerica4J.ChangeDomain | src/com/textamerica/TextAmerica4J.java:341-350 | Sends the credentials followed by the moblog id and domain to `ta.Moblog.ChangeDomain` and returns the reply cast to a string. |
| TextAmerica.TextAmerica4J.ChangeDomainPrimitive | src/com/textamerica/TextAmerica4J.java:366-368 | Boxes the primitive arguments and makes the same call as the boxed overload. |
| TextAmerica.TextAmerica4J.ChangeSecretWord | src/com/textamerica/TextAmerica4J.java:384-393 | Sends the credentials followed by the moblog id and secret word to `ta.Moblog.ChangeSecretWord` and returns the reply cast to a string. |
| TextAmerica.TextAmerica4J.ChangeSecretWordPrimitive | src/com/textamerica/TextAmerica4J.java:409-411 | Boxes the primitive arguments and makes the same call as the boxed overload. |
| TextAmerica.TextAmerica4J.EntryUpdate | src/com/textamerica/TextAmerica4J.java:437-469 | Adds the five entry fields, reads the whole image; if it cannot be opened or read, fails with an I/O error before any call; otherwise sends the base64 text of the file content and the file type to `ta.Entry.Update` and returns the reply cast to a string. |
| TextAmerica.TextAmerica4J.EntryUpdatePrimitive | src/com/textamerica/TextAmerica4J.java:495-498 | Boxes the three ids and behaves as the boxed `entryUpdate`. |
| TextAmerica.TextAmerica4J.EntryDelete | src/com/textamerica/TextAmerica4J.java:514-523 | Sends the credentials followed by the moblog id and entry id to `ta.Entry.Delete` and returns the reply cast to a string. |
| TextAmerica.TextAmerica4J.EntryDeletePrimitive | src/com/textamerica/TextAmerica4J.java:539-541 | Boxes the primitive arguments and makes the same call as the boxed overload. |
| TextAmerica.TextAmerica4J.AddKeywords | src/com/textamerica/TextAmerica4J.java:557-566 | Sends the credentials followed by the entry id and keywords to `ta.Keywords.Add` and returns the reply cast to a string. |
| TextAmerica.TextAmerica4J.AddKeywordsPrimitive | src/com/textamerica/TextAmerica4J.java:582-584 | Boxes the primitive arguments and makes the same call as the boxed overload. |
| TextAmerica.TextAmerica4J.FavoritesUpdate | src/com/textamerica/TextAmerica4J.java:600-609 | Sends the credentials followed by the list id and title to `ta.Favorites.Update` and returns the reply uncast. |
| TextAmerica.TextAmerica4J.FavoritesUpdatePrimitive | src/com/textamerica/TextAmerica4J.java:625-627 | Boxes the primitive arguments and makes the same call as the boxed overload. |
| TextAmerica.TextAmerica4J.FavoritesDelete | src/com/textamerica/TextAmerica4J.java:643-652 | Sends the credentials followed by the list id and moblog URL to `ta.Favorites.Delete` and returns the reply uncast. |
| TextAmerica.TextAmerica4J.FavoritesDeletePrimitive | src/com/textamerica/TextAmerica4J.java:668-670 | Boxes the primitive arguments and makes the same call as the boxed overload. |
| TextAmerica.TextAmerica4J.FavoritesAssign | src/com/textamerica/TextAmerica4J.java:686-695 | Sends the credentials followed by the moblog id and list id to `ta.Favorites.Assign` and returns the reply uncast. |
| TextAmerica.TextAmerica4J.FavoritesAssignPrimitive | src/com/textamerica/TextAmerica4J.java:711-713 | Boxes the primitive arguments and makes the same call as the boxed overload. |
| TextAmerica.TextAmerica4J.FavoritesAddMoblog | src/com/textamerica/TextAmerica4J.java:729-738 | Sends the credentials followed by the list id and moblog URL to `ta.Favorites.AddMoblog` and returns the reply uncast. |
| TextAmerica.TextAmerica4J.FavoritesAddMoblogPrimitive | src/com/textamerica/TextAmerica4J.java:754-756 | Boxes the primitive arguments and makes the same call as the boxed overload. |
| TextAmerica.TextAmerica4J.FavoritesRemoveMoblog | src/com/textamerica/TextAmerica4J.java:772-781 | Sends the credentials followed by the list id and moblog URL to `ta.Favorites.RemoveMoblog` and returns the reply uncast. |
| TextAmerica.TextAmerica4J.FavoritesRemoveMoblogPrimitive | src/com/textamerica/TextAmerica4J.java:797-799 | Boxes the primitive arguments and makes the same call as the boxed overload. |
| TextAmerica.TextAmerica4J.BookmarksUpdate | src/com/textamerica/TextAmerica4J.java:815-824 | Sends the credentials followed by the list id and title to `ta.Bookmarks.Update` and returns the reply cast to a string. |
| TextAmerica.TextAmerica4J.BookmarksUpdatePrimitive | src/com/textamerica/TextAmerica4J.java:840-842 | Boxes the primitive arguments and makes the same call as the boxed overload. |
| TextAmerica.TextAmerica4J.BookmarksAssign | src/com/textamerica/TextAmerica4J.java:858-867 | Sends the credentials followed by the moblog id and list id to `ta.Bookmarks.Assign` and returns the reply cast to a string. |
| TextAmerica.TextAmerica4J.BookmarksAssignPrimitive | src/com/textamerica/TextAmerica4J.java:883-885 | Boxes the primitive arguments and makes the same call as the boxed overload. |
| TextAmerica.TextAmerica4J.BookmarksUnAssign | src/com/textamerica/TextAmerica4J.java:901-910 | Sends the credentials followed by the moblog id and list id to `ta.Bookmarks.UnAssign` and returns the reply cast to a string. |
| TextAmerica.TextAmerica4J.BookmarksUnAssignPrimitive | src/com/textamerica/TextAmerica4J.java:926-928 | Boxes the primitive arguments and makes the same call as the boxed overload. |
| TextAmerica.TextAmerica4J.BookmarksDelete | src/com/textamerica/TextAmerica4J.java:942-950 | Sends the credentials followed by the list id to `ta.Bookmarks.Delete` and returns the reply cast to a string. |
| TextAmerica.TextAmerica4J.BookmarksDeletePrimitive | src/com/textamerica/TextAmerica4J.java:964-966 | Boxes the primitive arguments and makes the same call as the boxed overload. |
| TextAmerica.TextAmerica4J.BookmarksUpdateUrl | src/com/textamerica/TextAmerica4J.java:982-991 | Sends the credentials followed by the list id and URL to `ta.Bookmarks.UpdateURL` and returns the reply cast to a string. |
| TextAmerica.TextAmerica4J.BookmarksUpdateUrlPrimitive | src/com/textamerica/TextAmerica4J.java:1007-1009 | Boxes the primitive arguments and makes the same call as the boxed overload. |
| TextAmerica.TextAmerica4J.BookmarksRemoveUrl | src/com/textamerica/TextAmerica4J.java:1025-1034 | Sends the credentials followed by the list id and URL to `ta.Bookmarks.RemoveURL` and returns the reply cast to a string. |
| TextAmerica.TextAmerica4J.BookmarksRemoveUrlPrimitive | src/com/textamerica/TextAmerica4J.java:1050-1052 | Boxes the primitive arguments and makes the same call as the boxed overload. |
| TextAmerica.TextAmerica4J.TemplateUpdateSection | src/com/textamerica/TextAmerica4J.java:1070-1080 | Sends the credentials followed by the moblog id, section id and HTML code to `ta.Template.UpdateSection` and returns the reply cast to a string. |
| TextAmerica.TextAmerica4J.TemplateUpdateSectionPrimitive | src/com/textamerica/TextAmerica4J.java:1098-1100 | Boxes the primitive arguments and makes the same call as the boxed overload. |
| TextAmerica.TextAmerica4J.SetTemplate | src/com/textamerica/TextAmerica4J.java:1118-1128 | Sends the credentials followed by the moblog id, graphic id and layout id to `ta.Template.SetTemplate` and returns the reply cast to a string. |
| TextAmerica.TextAmerica4J.SetTemplatePrimitive | src/com/textamerica/TextAmerica4J.java:1146-1148 | Boxes the primitive arguments and makes the same call as the boxed overload. |

## Left out

- Transport: the XML-RPC client's HTTP traffic and serialisation are not modelled. The transport is an injected function from call to reply, so it is deterministic here, and a remote fault or network failure is one `Fault` reply.
- Base64: `Base64.encode` and the platform-charset `new String(...)` are one injected function, so no encoding round trip is stated.
- Null replies: a null reply is not modelled, since XML-RPC has no nil value. A `(String)` or `(Vector)` cast of null would succeed in Java.
- Cast failures: a `ClassCastException` and its message are modelled as the single `CoercionError`.
- Other exceptions: Java exception types are collapsed into the three `Error` kinds.
- Null image file: passing a null `File` throws a `NullPointerException` rather than an `IOException`. The model has no null file: a file that cannot be opened is `Missing`.
- Streams: the file streams' opening, buffering and closing are not modelled; only the data each `read` returns is. The source closes `is` and `bufferedInputStream` only after the loop ends (TextAmerica4J.java:456-457), so a `read` that throws leaves both open; that leak is not represented here.
- Read sizes: `BufferedInputStream.read` may return fewer bytes than are available. The model lets each read return any non-empty piece of at most 8192 bytes, and the file's division into pieces is part of the input.
- Zero-length reads: a `read` returning 0 is not modelled. It cannot happen with a non-empty buffer.
- Read loop placement: the loop sits inline in `entryUpdate` in the source. Here it is the method `Upload.ReadImage`, which `EntryUpdate` calls at the same point.
- Parameter vector: the `java.util.Vector` is a local sequence that the methods extend one element at a time. Aliasing of the vector is not captured; the source never shares it.
- Double and date-time replies: these reply values are opaque here, since no operation reads them.
- XmlRpcClient construction: the constructor does not build the transport from the endpoint. It receives the transport and records `Procedures.ApiEndpoint` beside it, so nothing ties the transport's behaviour to that URL; a malformed-URL failure is not modelled.
- UpdatePrimitive / strings: Java `char` and `String` are UTF-16 code units, while a Dafny `char` is a Unicode scalar value. A lone surrogate such as `'\uD800'`, which Java accepts as a flag and sends as a one-character string, cannot be written in the model. Conversely, a Dafny `char` at or above U+10000 gives a one-element flag that `Character.toString(char)` never produces. No operation of the client branches on the characters, so only the set of representable inputs differs.
