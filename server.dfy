/** The backend's request handling: which pricing file a request may read,
    the responses it sends, and the duration options it derives from the
    current pricing document. Reading and parsing a file is a parameter
    `read` from a path (relative to the backend directory) to the parsed
    document, absent when the file is missing or not valid JSON. */
module Server {
  import opened Common
  import opened Catalog

  /** A JSON body with status 200, or an error status with an `error`
      message. */
  datatype Response<T> = Ok(body: T) | Failure(status: int, error: string)

  /** The pricing files a client may request. */
  const AllowedFiles: seq<string> := ["index-version", "index-current-version", "index-current-region"]

  const PricingDirectory: string := "pricelists/verifiedpermissions/"

  /** Where a requested pricing file is read from. */
  function FilePath(file: string): string
  {
    PricingDirectory + file + ".json"
  }

  /** Two names never share a path. */
  lemma FilePathInjective(a: string, b: string)
    requires FilePath(a) == FilePath(b)
    ensures a == b
  {
    var n := |PricingDirectory|;
    assert |a| == |b|;
    assert a == FilePath(a)[n..n + |a|];
    assert b == FilePath(b)[n..n + |b|];
  }

  /** `GET /api/getAllServices`. */
  function GetAllServices<D>(read: string -> Option<D>): (r: Response<D>)
    ensures read("index.json").Some? ==> r == Ok(read("index.json").value)
    ensures read("index.json").None? ==> r == Failure(404, "File not found or invalid JSON")
  {
    var data := read("index.json");
    if data.Some? then Ok(data.value) else Failure(404, "File not found or invalid JSON")
  }

  /** `GET /api/verifiedpermissions/:file`. */
  function GetPricingFile<D>(file: string, read: string -> Option<D>): (r: Response<D>)
    ensures file !in AllowedFiles ==> r == Failure(400, "Invalid file requested")
    ensures file in AllowedFiles && read(FilePath(file)).None? ==> r == Failure(404, "File not found or invalid JSON")
    ensures file in AllowedFiles && read(FilePath(file)).Some? ==> r == Ok(read(FilePath(file)).value)
  {
    if file !in AllowedFiles then Failure(400, "Invalid file requested")
    else
      var data := read(FilePath(file));
      if data.Some? then Ok(data.value) else Failure(404, "File not found or invalid JSON")
  }

  /** A pricing-file response depends on the file system only through the
      one path of the requested, allowed name: whatever any other path
      holds, the answer is the same. */
  lemma PricingFileReadsOnlyItsPath<D>(file: string, read1: string -> Option<D>, read2: string -> Option<D>)
    requires file !in AllowedFiles || read1(FilePath(file)) == read2(FilePath(file))
    ensures GetPricingFile(file, read1) == GetPricingFile(file, read2)
  {
  }

  /** A successful pricing-file response comes from one of the three
      allowed paths. */
  lemma PricingFileServedFromAllowedPath<D>(file: string, read: string -> Option<D>)
    requires GetPricingFile(file, read).Ok?
    ensures file in AllowedFiles
    ensures exists k :: 0 <= k < |AllowedFiles| && read(FilePath(AllowedFiles[k])) == Some(GetPricingFile(file, read).body)
  {
    var k :| 0 <= k < |AllowedFiles| && AllowedFiles[k] == file;
  }

  /** `key === "OnDemand" ? "On-Demand" : key`. */
  function DurationLabel(key: string): string
  {
    if key == "OnDemand" then "On-Demand" else key
  }

  /** The duration options of a document: one per top-level term key, in
      key order, valued with the key; none when there are no `terms`. */
  function DurationOptions(doc: PricingDoc): (options: seq<Choice>)
    ensures doc.terms.None? ==> options == []
    ensures doc.terms.Some? ==> |options| == |doc.terms.value|
    ensures doc.terms.Some? ==> forall k :: 0 <= k < |options| ==>
      options[k].value == Some(doc.terms.value[k].0) && options[k].text == Some(DurationLabel(doc.terms.value[k].0))
  {
    if doc.terms.None? then []
    else
      var keys := Keys(doc.terms.value);
      seq(|keys|, k requires 0 <= k < |keys| => Choice(Some(DurationLabel(keys[k])), Some(keys[k])))
  }

  /** The "On-Demand" option is offered exactly when the document has
      on-demand terms, the only duration the pricing table prices. */
  lemma OnDemandOffered(doc: PricingDoc)
    ensures (doc.terms.Some? && Lookup(doc.terms.value, "OnDemand").Some?) ==>
      Choice(Some("On-Demand"), Some("OnDemand")) in DurationOptions(doc)
    ensures Choice(Some("On-Demand"), Some("OnDemand")) in DurationOptions(doc) ==>
      doc.terms.Some? && Lookup(doc.terms.value, "OnDemand").Some?
  {
    var options := DurationOptions(doc);
    if doc.terms.Some? && Lookup(doc.terms.value, "OnDemand").Some? {
      var k :| 0 <= k < |doc.terms.value| && doc.terms.value[k] == ("OnDemand", Lookup(doc.terms.value, "OnDemand").value);
      assert options[k] == Choice(Some("On-Demand"), Some("OnDemand"));
    }
    if Choice(Some("On-Demand"), Some("OnDemand")) in options {
      var k :| 0 <= k < |options| && options[k] == Choice(Some("On-Demand"), Some("OnDemand"));
      assert doc.terms.value[k].0 == "OnDemand";
    }
  }

  /** `GET /api/durations`. */
  function GetDurations(read: string -> Option<PricingDoc>): (r: Response<seq<Choice>>)
    ensures read(FilePath("index-current-version")).None? ==> r == Failure(500, "Could not extract durations.")
    ensures read(FilePath("index-current-version")).Some? ==> r == Ok(DurationOptions(read(FilePath("index-current-version")).value))
  {
    var data := read(PricingDirectory + "index-current-version.json");
    assert PricingDirectory + "index-current-version.json" == FilePath("index-current-version");
    if data.Some? then Ok(DurationOptions(data.value)) else Failure(500, "Could not extract durations.")
  }
}
