/** The resource's error value: a short label plus a detail text. */
module Errors {
  import opened Wrappers

  datatype KVError = KVError(shortMessage: string, detail: string)

  // The short labels the item operations produce.
  const ClientError := "Client Error"
  const HttpError := "HTTP Error"
  const KeyConflict := "Key Conflict"
  const NoStoreFound := "No KV Store Found"
  const KeyNotFound := "The key cannot be found within the KV store"
  const UnexpectedResponse := "Unexpected Fastly API Response"
  const BodyReadError := "Body Read Error"

  /** True for exactly the labels above. */
  predicate IsLabel(s: string) {
    s in {ClientError, HttpError, KeyConflict, NoStoreFound, KeyNotFound, UnexpectedResponse, BodyReadError}
  }

  /** Error(): the short message, a newline, then the detail. */
  function Render(e: KVError): string {
    e.shortMessage + "\n" + e.detail
  }

  /** Splits `s` at its first newline: the text before it, and the text
      after it when there is one. */
  function SplitFirstLine(s: string): (r: (string, Option<string>))
    ensures '\n' !in r.0
    ensures r.1.None? <==> '\n' !in s
    ensures r.1.None? ==> r.0 == s
    ensures r.1.Some? ==> s == r.0 + "\n" + r.1.value
  {
    if s == [] then ([], None)
    else if s[0] == '\n' then ([], Some(s[1..]))
    else
      var tail := SplitFirstLine(s[1..]);
      assert s == [s[0]] + s[1..];
      ([s[0]] + tail.0, tail.1)
  }

  /** Joining two texts with a newline and splitting at the first newline
      gives them back, provided the first holds no newline. */
  lemma {:induction false} SplitJoin(a: string, b: string)
    requires '\n' !in a
    ensures SplitFirstLine(a + "\n" + b) == (a, Some(b))
  {
    if a == [] {
      assert a + "\n" + b == ['\n'] + b;
      assert (['\n'] + b)[1..] == b;
    } else {
      var s := a + "\n" + b;
      assert s[1..] == a[1..] + "\n" + b;
      assert '\n' !in a[1..] by {
        forall i | 0 <= i < |a[1..]| ensures a[1..][i] != '\n' {
          assert a[1..][i] == a[i + 1];
        }
      }
      SplitJoin(a[1..], b);
      assert s[0] == a[0];
      assert [a[0]] + a[1..] == a;
    }
  }

  /** None of the labels spans more than one line. */
  lemma LabelsAreSingleLine(s: string)
    requires IsLabel(s)
    ensures '\n' !in s
  {
  }

  /** The rendered error text gives back both the label and the detail:
      the label is its first line and the detail is the rest. */
  lemma RenderRoundTrip(e: KVError)
    requires IsLabel(e.shortMessage)
    ensures SplitFirstLine(Render(e)) == (e.shortMessage, Some(e.detail))
  {
    LabelsAreSingleLine(e.shortMessage);
    SplitJoin(e.shortMessage, e.detail);
  }
}
