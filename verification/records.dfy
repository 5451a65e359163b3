/** The records `WebScraper.scrape_website` builds and `export_to_csv`
    cleans (web_scraper.py). The parsed page is an input: a selector's
    evaluation is given as the stripped texts of its matches in document
    order, or as the exception it raised. */
module Records {
  import opened Common
  import opened Text

  /** What `soup.select(selector)` gives, with each match already reduced to
      `get_text(strip=True)`. */
  datatype SelectResult = SelectErr | Matches(texts: seq<string>)

  /** A record value: `None`, a string, a list of strings, or the metadata
      dictionary. */
  datatype Value =
    | Null
    | Scalar(text: string)
    | List(items: seq<string>)
    | Metadata(url: string, scrapedAt: string, title: Option<string>, status: string)

  type Record = map<string, Value>

  /** The reserved key under which the metadata is stored. */
  const MetadataKey: string := "_metadata"

  /** The texts a field value carries, in order. */
  function FieldTexts(v: Value): seq<string> {
    match v
    case Null => []
    case Scalar(t) => [t]
    case List(items) => items
    case Metadata(_, _, _, _) => []
  }

  /** One field of `scrape_website`: no match or a failing selector gives
      `None`, one match its text, several matches the list of their texts. */
  function ShapeField(m: SelectResult): (v: Value)
    ensures m.SelectErr? ==> v == Null
    ensures m.Matches? && |m.texts| == 0 ==> v == Null
    ensures m.Matches? && |m.texts| == 1 ==> v == Scalar(m.texts[0])
    ensures m.Matches? && |m.texts| > 1 ==> v == List(m.texts)
    ensures m.Matches? ==> FieldTexts(v) == m.texts
    ensures v.List? ==> |v.items| >= 2
    ensures !v.Metadata?
  {
    match m
    case SelectErr => Null
    case Matches(texts) =>
      if |texts| == 0 then Null
      else if |texts| == 1 then Scalar(texts[0])
      else List(texts)
  }

  /** The fields requested: none when the selector map is `None` or empty. */
  function SelectorKeys(selectors: Option<map<string, string>>): set<string> {
    if selectors.Some? then selectors.value.Keys else {}
  }

  /** The per-field loop of `scrape_website`; each field depends only on its
      own selector, so one failing selector leaves the others intact. */
  function ExtractFields(selectors: map<string, string>, select: string -> SelectResult): (fields: Record)
    ensures fields.Keys == selectors.Keys
    ensures forall k :: k in fields ==> fields[k] == ShapeField(select(selectors[k]))
  {
    map k | k in selectors :: ShapeField(select(selectors[k]))
  }

  /** `scrape_website` after the robots check: `{}` when there is no content,
      otherwise the extracted fields with the metadata stored last under
      `_metadata`, replacing a field of that name. */
  function BuildRecord(url: string, selectors: Option<map<string, string>>, content: Option<string>,
                       title: Option<string>, select: string -> SelectResult, scrapedAt: string): (rec: Record)
    ensures !Truthy(content) ==> rec == map[]
    ensures Truthy(content) ==> rec.Keys == SelectorKeys(selectors) + {MetadataKey}
    ensures Truthy(content) ==> rec[MetadataKey] == Metadata(url, scrapedAt, title, "success")
    ensures forall k :: k in rec && k != MetadataKey ==>
              selectors.Some? && k in selectors.value && rec[k] == ShapeField(select(selectors.value[k]))
  {
    if !Truthy(content) then map[]
    else
      var fields := if selectors.Some? && selectors.value != map[] then ExtractFields(selectors.value, select) else map[];
      fields[MetadataKey := Metadata(url, scrapedAt, title, "success")]
  }

  /** Keys starting with an underscore are internal and never exported. */
  predicate IsInternalKey(k: string) {
    StartsWith(k, "_")
  }

  /** The record comprehension of `export_to_csv`: the entries whose key does
      not start with '_'. */
  function CleanRecord(rec: Record): (c: Record)
    ensures forall k :: k in c <==> k in rec && !IsInternalKey(k)
    ensures forall k :: k in c ==> c[k] == rec[k]
  {
    map k | k in rec && !IsInternalKey(k) :: rec[k]
  }

  /** The data handed to `export_to_csv`: one record or a list of them. */
  datatype ExportInput = OneRecord(record: Record) | ManyRecords(records: seq<Record>)

  function AsList(d: ExportInput): seq<Record> {
    match d
    case OneRecord(rec) => [rec]
    case ManyRecords(recs) => recs
  }

  /** `export_to_csv` up to writing: a single record becomes a one-record
      list, and every record is cleaned in place. */
  function CleanForCsv(d: ExportInput): (rows: seq<Record>)
    ensures d.OneRecord? ==> |rows| == 1
    ensures |rows| == |AsList(d)|
    ensures forall i :: 0 <= i < |rows| ==> rows[i] == CleanRecord(AsList(d)[i])
    ensures forall i, k :: 0 <= i < |rows| && k in rows[i] ==> !IsInternalKey(k)
  {
    var recs := AsList(d);
    seq(|recs|, i requires 0 <= i < |recs| => CleanRecord(recs[i]))
  }

  /** Cleaning already cleaned records changes nothing. */
  lemma CleanForCsvIdempotent(d: ExportInput)
    ensures CleanForCsv(ManyRecords(CleanForCsv(d))) == CleanForCsv(d)
  {
    var once := CleanForCsv(d);
    var twice := CleanForCsv(ManyRecords(once));
    forall i | 0 <= i < |once|
      ensures twice[i] == once[i]
    {
      assert twice[i] == CleanRecord(once[i]);
      assert twice[i].Keys == once[i].Keys;
    }
  }

  /** Exporting a scraped record keeps exactly the requested fields that do
      not start with '_', with their extracted values; the metadata never
      reaches the CSV. */
  lemma CleanScrapedRecord(url: string, selectors: map<string, string>, content: Option<string>,
                           title: Option<string>, select: string -> SelectResult, scrapedAt: string)
    requires Truthy(content)
    ensures var c := CleanRecord(BuildRecord(url, Some(selectors), content, title, select, scrapedAt));
            && (forall k :: k in c <==> k in selectors && !IsInternalKey(k))
            && (forall k :: k in c ==> c[k] == ShapeField(select(selectors[k])))
            && MetadataKey !in c
  {
  }
}
