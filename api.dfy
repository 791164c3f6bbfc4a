/** The URL builders of the API client: every endpoint is the configured
    base URL followed by a fixed path, with the numeric id rendered in
    decimal and the file name inserted verbatim. */
module Api {

  predicate IsDigit(c: char) {
    '0' <= c <= '9'
  }

  function DigitChar(d: nat): char
    requires d < 10
  {
    "0123456789"[d]
  }

  /** Decimal digits of a natural number, without leading zeros. */
  function Natural(n: nat): (r: string)
    ensures |r| > 0
    ensures forall i | 0 <= i < |r| :: IsDigit(r[i])
  {
    if n < 10 then [DigitChar(n)] else Natural(n / 10) + [DigitChar(n % 10)]
  }

  /** `${id}` for an integer-valued number. */
  function Decimal(id: int): string {
    if id < 0 then "-" + Natural(-id) else Natural(id)
  }

  function ParseNatural(s: string): nat {
    if |s| == 0 then 0
    else ParseNatural(s[..|s| - 1]) * 10 + (if IsDigit(s[|s| - 1]) then (s[|s| - 1] - '0') as nat else 0)
  }

  /** Reads back what `Decimal` writes. */
  function ParseDecimal(s: string): int {
    if |s| > 0 && s[0] == '-' then -(ParseNatural(s[1..]) as int) else ParseNatural(s)
  }

  lemma {:induction false} NaturalRoundTrip(n: nat)
    ensures ParseNatural(Natural(n)) == n
  {
    if n >= 10 {
      NaturalRoundTrip(n / 10);
      var s := Natural(n);
      assert s[..|s| - 1] == Natural(n / 10);
    }
  }

  lemma ParseSigned(digits: string)
    ensures ParseDecimal("-" + digits) == -(ParseNatural(digits) as int)
  {
    assert ("-" + digits)[1..] == digits;
  }

  lemma DecimalRoundTrip(id: int)
    ensures ParseDecimal(Decimal(id)) == id
  {
    if id < 0 {
      NegativeRoundTrip(id);
    } else {
      NonNegativeRoundTrip(id);
    }
  }

  lemma NegativeRoundTrip(id: int)
    requires id < 0
    ensures ParseDecimal(Decimal(id)) == id
  {
    var n: nat := -id;
    var digits := Natural(n);
    assert Decimal(id) == "-" + digits;
    NaturalRoundTrip(n);
    ParseSigned(digits);
  }

  lemma NonNegativeRoundTrip(id: nat)
    ensures ParseDecimal(Decimal(id)) == id
  {
    NaturalRoundTrip(id);
    var digits := Natural(id);
    assert IsDigit(digits[0]);
  }

  lemma DecimalInjective(a: int, b: int)
    requires Decimal(a) == Decimal(b)
    ensures a == b
  {
    DecimalRoundTrip(a);
    DecimalRoundTrip(b);
  }

  /** `apiEndpoints.videos` */
  function Videos(apiUrl: string): string {
    apiUrl + "/api/videos"
  }

  /** `apiEndpoints.video.delete(id)` */
  function VideoDelete(apiUrl: string, id: int): (url: string)
    ensures |url| == |Videos(apiUrl)| + 1 + |Decimal(id)|
    ensures url[..|Videos(apiUrl)| + 1] == Videos(apiUrl) + "/"
    ensures url[|Videos(apiUrl)| + 1..] == Decimal(id)
  {
    apiUrl + "/api/videos/" + Decimal(id)
  }

  /** `apiEndpoints.video.view(id)` */
  function VideoView(apiUrl: string, id: int): string {
    apiUrl + "/api/videos/" + Decimal(id) + "/view"
  }

  /** `apiEndpoints.outputs(filename)` */
  function Outputs(apiUrl: string, filename: string): (url: string)
    ensures |url| == |apiUrl| + 9 + |filename|
    ensures url[..|apiUrl| + 9] == apiUrl + "/outputs/"
    ensures url[|apiUrl| + 9..] == filename
  {
    apiUrl + "/outputs/" + filename
  }

  /** The view URL of a video is its delete URL followed by `/view`. */
  lemma ViewExtendsDelete(apiUrl: string, id: int)
    ensures VideoView(apiUrl, id) == VideoDelete(apiUrl, id) + "/view"
  {
  }

  /** Distinct ids address distinct videos. */
  lemma DeleteInjective(apiUrl: string, a: int, b: int)
    requires VideoDelete(apiUrl, a) == VideoDelete(apiUrl, b)
    ensures a == b
  {
    DecimalInjective(a, b);
  }

  lemma ViewInjective(apiUrl: string, a: int, b: int)
    requires VideoView(apiUrl, a) == VideoView(apiUrl, b)
    ensures a == b
  {
    ViewExtendsDelete(apiUrl, a);
    ViewExtendsDelete(apiUrl, b);
    var u, v := VideoView(apiUrl, a), VideoView(apiUrl, b);
    assert u[..|u| - 5] == VideoDelete(apiUrl, a);
    assert v[..|v| - 5] == VideoDelete(apiUrl, b);
    DeleteInjective(apiUrl, a, b);
  }

  /** The file name is inserted without escaping: distinct names give
      distinct URLs, even names holding `/`, `?` or `#`. */
  lemma OutputsInjective(apiUrl: string, f: string, g: string)
    requires Outputs(apiUrl, f) == Outputs(apiUrl, g)
    ensures f == g
  {
  }
}
