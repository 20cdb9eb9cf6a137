/**
 * Reading the MIME type out of a data URL, as the regular expression
 * `^data:(.+);base64,` does in JavaScript: the literal `data:` at the start,
 * then a greedy run of one or more characters other than a line terminator
 * (the capture), then the literal `;base64,`. When nothing matches, the
 * type defaults to `image/jpeg`.
 */
module DataUrl {
  import opened Wrappers

  const Scheme: string := "data:"
  const Marker: string := ";base64,"
  const DefaultMime: string := "image/jpeg"

  /** The characters JavaScript's `.` does not match (without the `s` flag). */
  predicate IsLineTerminator(c: char)
  {
    c == '\n' || c == '\r' || c == '\U{2028}' || c == '\U{2029}'
  }

  /** Every character of `s` is matched by `.`. */
  predicate DotMatchesAll(s: string)
  {
    forall i | 0 <= i < |s| :: !IsLineTerminator(s[i])
  }

  /** `m` is a possible capture of `(.+)` when the pattern matches `src`. */
  predicate IsCapture(src: string, m: string)
  {
    |m| > 0 && DotMatchesAll(m) && Scheme + m + Marker <= src
  }

  /** `;base64,` occurs in `body` at offset `k`. */
  predicate MarkerAt(body: string, k: nat)
  {
    k + |Marker| <= |body| && body[k..k + |Marker|] == Marker
  }

  /**
   * How far the greedy `.+` first runs: the length of the longest prefix
   * of `s` free of line terminators.
   */
  function DotRun(s: string): (n: nat)
    ensures n <= |s|
    ensures forall i | 0 <= i < n :: !IsLineTerminator(s[i])
    ensures n < |s| ==> IsLineTerminator(s[n])
  {
    if |s| == 0 || IsLineTerminator(s[0]) then 0
    else 1 + DotRun(s[1..])
  }

  /**
   * Backtracking of `.+` after it has consumed `k` characters: give one
   * back at a time until `;base64,` follows, and fail once the capture
   * would become empty. The result is the largest offset in `1..k` at
   * which the marker occurs.
   */
  function Backtrack(body: string, k: nat): (r: Option<nat>)
    requires k <= |body|
    ensures r.Some? ==> 1 <= r.value <= k && MarkerAt(body, r.value)
    ensures r.Some? ==> forall j | r.value < j <= k :: !MarkerAt(body, j)
    ensures r.None? ==> forall j | 1 <= j <= k :: !MarkerAt(body, j)
    decreases k
  {
    if k == 0 then None
    else if MarkerAt(body, k) then Some(k)
    else Backtrack(body, k - 1)
  }

  /** A capture `m` of `src` is the first `|m|` characters after `data:`. */
  lemma CaptureShape(src: string, m: string)
    requires IsCapture(src, m)
    ensures Scheme <= src
    ensures var body := src[|Scheme|..];
      && 1 <= |m| <= DotRun(body)
      && body[..|m|] == m
      && MarkerAt(body, |m|)
      && body[|m|] == ';'
  {
    var body := src[|Scheme|..];
    var w := Scheme + m + Marker;
    assert w[..|Scheme|] == Scheme;
    assert src[..|Scheme|] == Scheme;
    assert body[..|m|] == m by {
      assert w[|Scheme|..|Scheme| + |m|] == m;
    }
    assert body[|m|..|m| + |Marker|] == Marker by {
      assert w[|Scheme| + |m|..] == Marker;
    }
  }

  /** Conversely, a marker within the terminator-free run after `data:` gives a capture. */
  lemma CaptureFromMarker(src: string, k: nat)
    requires Scheme <= src
    requires 1 <= k <= DotRun(src[|Scheme|..])
    requires MarkerAt(src[|Scheme|..], k)
    ensures IsCapture(src, src[|Scheme|..][..k])
  {
    var body := src[|Scheme|..];
    var m := body[..k];
    var n := DotRun(body);
    assert m == body[..n][..k];
    assert src[..|Scheme| + k + |Marker|] == Scheme + m + Marker by {
      assert src == src[..|Scheme|] + body;
      assert body[..k + |Marker|] == m + body[k..k + |Marker|];
    }
  }

  /** Two captures of the same source with the same length are the same string. */
  lemma CaptureByLength(src: string, m: string, m': string)
    requires IsCapture(src, m) && IsCapture(src, m')
    requires |m| == |m'|
    ensures m == m'
  {
    CaptureShape(src, m);
    CaptureShape(src, m');
  }

  /**
   * Group 1 of `^data:(.+);base64,` on `src`, or None when the pattern
   * does not match. A match captures the longest possible string.
   */
  function Capture(src: string): (r: Option<string>)
    ensures r.Some? ==> IsCapture(src, r.value)
    ensures r.Some? ==> forall m | IsCapture(src, m) :: |m| <= |r.value|
    ensures r.None? ==> forall m :: !IsCapture(src, m)
  {
    if Scheme <= src then
      var body := src[|Scheme|..];
      match Backtrack(body, DotRun(body))
      case Some(k) =>
        CaptureFromMarker(src, k);
        assert forall m | IsCapture(src, m) :: |m| <= k by {
          forall m | IsCapture(src, m) ensures |m| <= k {
            CaptureShape(src, m);
          }
        }
        Some(body[..k])
      case None =>
        assert forall m :: !IsCapture(src, m) by {
          forall m | IsCapture(src, m) ensures false {
            CaptureShape(src, m);
          }
        }
        None
    else
      assert forall m :: !IsCapture(src, m) by {
        forall m | IsCapture(src, m) ensures false {
          CaptureShape(src, m);
        }
      }
      None
  }

  /**
   * The MIME type `crop` reads from the source image: the greedy capture
   * when the pattern matches (the capture is never empty, so the
   * truthiness test on it always passes), `image/jpeg` otherwise.
   */
  function MimeType(src: string): (r: string)
    ensures (forall m :: !IsCapture(src, m)) ==> r == DefaultMime
    ensures (exists m :: IsCapture(src, m)) ==>
      IsCapture(src, r) && forall m | IsCapture(src, m) :: |m| <= |r|
  {
    match Capture(src)
    case Some(m) => m
    case None => DefaultMime
  }

  /** The characters of base64 text, as `FileReader.readAsDataURL` produces it. */
  predicate IsBase64Char(c: char)
  {
    ('A' <= c <= 'Z') || ('a' <= c <= 'z') || ('0' <= c <= '9') || c == '+' || c == '/' || c == '='
  }

  /** The data URL of a file whose MIME type is `mime` and whose base64 text is `payload`. */
  function Encode(mime: string, payload: string): (url: string)
    ensures Scheme <= url
  {
    Scheme + mime + Marker + payload
  }

  /** The type an encoded data URL was built with is one of its captures. */
  lemma EncodeCapture(mime: string, payload: string)
    requires |mime| > 0 && DotMatchesAll(mime)
    ensures IsCapture(Encode(mime, payload), mime)
  {
    var src := Encode(mime, payload);
    assert src[..|Scheme| + |mime| + |Marker|] == Scheme + mime + Marker;
  }

  /**
   * After the type, `;base64,` never occurs again in an encoded data URL:
   * the rest of the marker and the base64 text hold no `;`.
   */
  lemma NoLaterMarker(mime: string, payload: string, j: nat)
    requires forall i | 0 <= i < |payload| :: IsBase64Char(payload[i])
    ensures |mime| < j ==> !MarkerAt(mime + Marker + payload, j)
  {
    var body := mime + Marker + payload;
    if |mime| < j && j + |Marker| <= |body| {
      assert body[j] != ';' by {
        if j < |mime| + |Marker| {
          assert body[j] == Marker[j - |mime|];
        } else {
          assert body[j] == payload[j - |mime| - |Marker|];
        }
      }
      assert body[j..j + |Marker|][0] != Marker[0];
    }
  }

  /** No capture of an encoded data URL is longer than the type it was built with. */
  lemma CaptureOfEncodeBounded(mime: string, payload: string, m: string)
    requires forall i | 0 <= i < |payload| :: IsBase64Char(payload[i])
    requires IsCapture(Encode(mime, payload), m)
    ensures |m| <= |mime|
  {
    var src := Encode(mime, payload);
    assert src[|Scheme|..] == mime + Marker + payload;
    CaptureShape(src, m);
    NoLaterMarker(mime, payload, |m|);
  }

  /**
   * Round trip: reading the MIME type back from a data URL gives the
   * type it was built with, whenever that type is non-empty, free of line
   * terminators, and followed by base64 text.
   */
  lemma MimeTypeOfEncode(mime: string, payload: string)
    requires |mime| > 0 && DotMatchesAll(mime)
    requires forall i | 0 <= i < |payload| :: IsBase64Char(payload[i])
    ensures MimeType(Encode(mime, payload)) == mime
  {
    var src := Encode(mime, payload);
    EncodeCapture(mime, payload);
    var r := MimeType(src);
    CaptureOfEncodeBounded(mime, payload, r);
    CaptureByLength(src, r, mime);
  }

  /** `data:image/png;base64,AAAA` yields `image/png`. */
  lemma PngExample()
    ensures MimeType("data:image/png;base64,AAAA") == "image/png"
  {
    assert "data:image/png;base64,AAAA" == Encode("image/png", "AAAA");
    MimeTypeOfEncode("image/png", "AAAA");
  }

  /** A string that does not start with `data:` yields the default `image/jpeg`. */
  lemma NotADataUrlExample()
    ensures MimeType("not-a-data-url") == DefaultMime
  {
    assert !(Scheme <= "not-a-data-url") by {
      assert "not-a-data-url"[0] != Scheme[0];
    }
    forall m | IsCapture("not-a-data-url", m) ensures false {
      CaptureShape("not-a-data-url", m);
    }
  }

  /** Greediness: with two markers the capture runs to the last one. */
  lemma GreedyExample()
    ensures MimeType("data:a;base64,b;base64,") == "a;base64,b"
  {
    var src := "data:a;base64,b;base64,";
    var m := "a;base64,b";
    assert Scheme + m + Marker == src;
    assert IsCapture(src, m);
    var r := MimeType(src);
    if |r| > |m| {
      CaptureShape(src, r);
    }
    CaptureByLength(src, r, m);
  }

  /**
   * A line terminator at offset `t` after `data:`, with no `;` in front of
   * it, defeats the match: `.+` cannot run past the terminator, and no
   * marker starts before it.
   */
  lemma TerminatorBeforeMarker(body: string, t: nat)
    requires t < |body| && IsLineTerminator(body[t])
    requires forall k | 0 <= k <= t :: body[k] != ';'
    ensures MimeType(Scheme + body) == DefaultMime
  {
    var src := Scheme + body;
    assert src[|Scheme|..] == body;
    forall m | IsCapture(src, m) ensures false {
      CaptureShape(src, m);
    }
  }

  /** `.` stops at a line terminator, so a newline before the marker defeats the match. */
  lemma LineTerminatorExample()
    ensures MimeType("data:image/png\n;base64,") == DefaultMime
  {
    assert "data:image/png\n;base64," == Scheme + "image/png\n;base64,";
    TerminatorBeforeMarker("image/png\n;base64,", 9);
  }
}
