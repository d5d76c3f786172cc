/** The map link built for a shared location, and a reader for it that
    recovers the coordinates. */
module MapsLink {
  import opened ChatTypes

  const Prefix: string := "https://google.com/maps?q="

  /** The coordinates as the client sent them, already rendered as text. */
  datatype Coords = Coords(latitude: string, longitude: string)

  /** The link sendLocation interpolates: prefix, latitude, a comma, longitude. */
  function Url(c: Coords): string
  {
    Prefix + c.latitude + "," + c.longitude
  }

  /** The index of the first comma in `s`, or |s| when there is none. */
  function FirstComma(s: string): (i: nat)
    ensures i <= |s|
    ensures forall k :: 0 <= k < i ==> s[k] != ','
    ensures i < |s| ==> s[i] == ','
  {
    if s == [] || s[0] == ',' then 0 else 1 + FirstComma(s[1..])
  }

  /** Reads a link back into its coordinates: the prefix, then everything up to
      the first comma is the latitude and everything after it the longitude. */
  function Parse(url: string): Option<Coords>
  {
    if |url| < |Prefix| || url[..|Prefix|] != Prefix then None
    else
      var rest := url[|Prefix|..];
      var i := FirstComma(rest);
      if i == |rest| then None else Some(Coords(rest[..i], rest[i + 1..]))
  }

  /** The link determines the coordinates exactly when the latitude has no
      comma in it (a rendered number never has one), and every link the
      reader accepts is one that Url builds. */
  lemma {:induction false} ParseInvertsUrl(url: string, c: Coords)
    ensures Parse(url) == Some(c) <==> url == Url(c) && ',' !in c.latitude
  {
    if url == Url(c) && ',' !in c.latitude {
      assert url == Prefix + (c.latitude + "," + c.longitude);
      var rest := url[|Prefix|..];
      assert url[..|Prefix|] == Prefix;
      assert rest == c.latitude + "," + c.longitude;
      var i := FirstComma(rest);
      assert rest[|c.latitude|] == ',';
      assert forall k :: 0 <= k < |c.latitude| ==> rest[k] == c.latitude[k];
      assert i == |c.latitude|;
      assert rest[..i] == c.latitude;
      assert rest[i + 1..] == c.longitude;
    }
    if Parse(url) == Some(c) {
      assert |Prefix| <= |url| && url[..|Prefix|] == Prefix;
      var rest := url[|Prefix|..];
      var i := FirstComma(rest);
      assert rest == rest[..i] + "," + rest[i + 1..];
      assert url == url[..|Prefix|] + rest;
      assert forall k :: 0 <= k < |c.latitude| ==> c.latitude[k] == rest[k];
    }
  }
}
