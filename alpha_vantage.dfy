/** What both downloaders share about the Alpha Vantage query API: the query
    variants, the decoded JSON payload of a reply, and the two pieces of
    Python semantics the classification leans on (truthiness of an optional
    string, and a case-insensitive search for "premium"). */
module AlphaVantage {

  datatype Option<T> = None | Some(value: T)

  datatype Result<T, E> = Ok(value: T) | Err(error: E)

  /** The `function` query parameter. */
  datatype SeriesFunction = TimeSeriesDaily | TimeSeriesDailyAdjusted

  /** The `outputsize` query parameter. */
  datatype OutputSize = Compact | Full

  /** One query variant: a series function and an output size. */
  datatype Variant = Variant(series: SeriesFunction, size: OutputSize)

  /** Prices are carried, never computed with. */
  type Price = real

  /** One entry of the "Time Series (Daily)" object: the date key, as a day
      ordinal, and the record's fields ("4. close", "5. adjusted close", ...). */
  datatype DayRecord = DayRecord(day: int, fields: map<string, Price>)

  /** The keys of a decoded JSON reply that the downloaders look at; `None`
      means the key is absent. The series keeps the object's key order. */
  datatype Payload = Payload(
    information: Option<string>,          // "Information"
    note: Option<string>,                 // "Note"
    errorMessage: Option<string>,         // "Error Message"
    timeSeries: Option<seq<DayRecord>>)   // "Time Series (Daily)"

  /** What one HTTP GET produced: a transport exception, or a status and a body. */
  datatype Reply = NetworkError | HttpReply(status: int, payload: Payload)

  /** Python truthiness of an optional string: present and non-empty. */
  predicate Truthy(s: Option<string>) {
    s.Some? && s.value != ""
  }

  /** Python's `a or b` on two optional strings. */
  function Or(a: Option<string>, b: Option<string>): (r: Option<string>)
    ensures Truthy(r) <==> Truthy(a) || Truthy(b)
    ensures Truthy(a) ==> r == a
    ensures !Truthy(a) ==> r == b
  {
    if Truthy(a) then a else b
  }

  function LowerChar(c: char): char {
    if 'A' <= c <= 'Z' then (c as int + 32) as char else c
  }

  /** `str.lower()` restricted to ASCII letters. */
  function Lower(s: string): (r: string)
    ensures |r| == |s|
    ensures forall i :: 0 <= i < |s| ==> r[i] == LowerChar(s[i])
  {
    if s == [] then [] else [LowerChar(s[0])] + Lower(s[1..])
  }

  /** `pattern in text` for strings. */
  predicate HasInfix(text: string, pattern: string)
    decreases |text|
  {
    pattern <= text || (text != [] && HasInfix(text[1..], pattern))
  }

  /** `pattern` occurs in `text` at offset `i`. */
  predicate OccursAt(text: string, pattern: string, i: int) {
    0 <= i <= |text| - |pattern| && text[i..i + |pattern|] == pattern
  }

  /** `HasInfix` holds exactly when the pattern occurs at some offset. */
  lemma {:induction false} HasInfixAt(text: string, pattern: string)
    ensures HasInfix(text, pattern) <==> exists i :: OccursAt(text, pattern, i)
    decreases |text|
  {
    if pattern <= text {
      assert OccursAt(text, pattern, 0);
    } else if text != [] {
      HasInfixAt(text[1..], pattern);
      if HasInfix(text[1..], pattern) {
        var i :| OccursAt(text[1..], pattern, i);
        assert text[i + 1..i + 1 + |pattern|] == text[1..][i..i + |pattern|];
        assert OccursAt(text, pattern, i + 1);
      }
      if exists i :: OccursAt(text, pattern, i) {
        var i :| OccursAt(text, pattern, i);
        assert i != 0;
        assert text[1..][i - 1..i - 1 + |pattern|] == text[i..i + |pattern|];
        assert OccursAt(text[1..], pattern, i - 1);
      }
    } else {
      assert pattern != [];
    }
  }

  /** `msg and "premium" in msg.lower()`: the premium-tier notice test. */
  predicate MentionsPremium(msg: Option<string>) {
    msg.Some? && HasInfix(Lower(msg.value), "premium")
  }

  /** An empty or absent notice never reads as a premium notice. */
  lemma PremiumNeedsText(msg: Option<string>)
    requires MentionsPremium(msg)
    ensures Truthy(msg)
  {
  }

  /** `"Note" in payload or "Information" in payload`. */
  predicate HasNotice(p: Payload) {
    p.note.Some? || p.information.Some?
  }

  /** `payload.get("Time Series (Daily)")` is truthy: present and non-empty. */
  predicate HasSeries(p: Payload) {
    p.timeSeries.Some? && p.timeSeries.value != []
  }
}
