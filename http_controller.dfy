/** The HTTP controller's fixed routes: the health check and the mimetype chosen for a
    static frontend file by its suffix. */
module HttpController {
  import opened Wrappers
  import opened PyStrings

  /** The `/healthz` payload `{"code": 0, "msg": "ok"}`. */
  datatype Health = Health(code: int, msg: string)

  function Healthz(): (r: Health)
    ensures r.code == 0 && r.msg == "ok"
  {
    Health(0, "ok")
  }

  /** The mimetype `/` serves `index.html` with. */
  const IndexMimetype := "text/html"

  /** The suffixes of the `static_file` chain and their mimetypes, in the order tested. */
  const SuffixTable: seq<(string, string)> := [
    (".html", "text/html"), (".js", "application/javascript"), (".css", "text/css"),
    (".png", "image/png"), (".jpg", "image/jpeg"), (".jpeg", "image/jpeg"), (".gif", "image/gif"),
    (".svg", "image/svg+xml"), (".ico", "image/x-icon"), (".json", "application/json"),
    (".txt", "text/plain")]

  /** The if/elif chain of `static_file`; no matching suffix leaves the mimetype `None`. */
  function MimeTypeFor(path: string): Option<string> {
    if EndsWith(path, ".html") then Some("text/html")
    else if EndsWith(path, ".js") then Some("application/javascript")
    else if EndsWith(path, ".css") then Some("text/css")
    else if EndsWith(path, ".png") then Some("image/png")
    else if EndsWith(path, ".jpg") then Some("image/jpeg")
    else if EndsWith(path, ".jpeg") then Some("image/jpeg")
    else if EndsWith(path, ".gif") then Some("image/gif")
    else if EndsWith(path, ".svg") then Some("image/svg+xml")
    else if EndsWith(path, ".ico") then Some("image/x-icon")
    else if EndsWith(path, ".json") then Some("application/json")
    else if EndsWith(path, ".txt") then Some("text/plain")
    else None
  }

  /** Two suffixes of one path: the shorter is a suffix of the longer. */
  lemma SharedSuffix(path: string, a: string, b: string)
    requires EndsWith(path, a) && EndsWith(path, b) && |a| <= |b|
    ensures EndsWith(b, a)
  {
    assert b[|b| - |a|..] == path[|path| - |a|..];
  }

  /** A string whose last two characters are not `a`'s does not end in `a`. */
  lemma TailsDiffer(s: string, a: string)
    requires |a| >= 2 && |s| >= 2 && (s[|s| - 1] != a[|a| - 1] || s[|s| - 2] != a[|a| - 2])
    ensures !EndsWith(s, a)
  {
    assert |a| <= |s| ==> s[|s| - |a|..][|a| - 1] == s[|s| - 1] && s[|s| - |a|..][|a| - 2] == s[|s| - 2];
  }

  /** The last two characters of the listed suffixes, in table order. */
  lemma TableTails()
    ensures forall i :: 0 <= i < |SuffixTable| ==> |SuffixTable[i].0| >= 3
    ensures forall i, j :: 0 <= i < |SuffixTable| && 0 <= j < |SuffixTable| && i != j ==>
      var a, b := SuffixTable[i].0, SuffixTable[j].0;
      a[|a| - 1] != b[|b| - 1] || a[|a| - 2] != b[|b| - 2]
  {
  }

  /** No listed suffix ends another: their last two characters already differ. */
  lemma SuffixFree()
    ensures forall i, j :: 0 <= i < |SuffixTable| && 0 <= j < |SuffixTable| && i != j ==>
      !EndsWith(SuffixTable[j].0, SuffixTable[i].0)
  {
    TableTails();
    forall i, j | 0 <= i < |SuffixTable| && 0 <= j < |SuffixTable| && i != j
      ensures !EndsWith(SuffixTable[j].0, SuffixTable[i].0)
    {
      TailsDiffer(SuffixTable[j].0, SuffixTable[i].0);
    }
  }

  /** Two different listed suffixes never both end one path. */
  lemma SuffixesExclusive(path: string, i: nat, j: nat)
    requires i < j < |SuffixTable|
    ensures !(EndsWith(path, SuffixTable[i].0) && EndsWith(path, SuffixTable[j].0))
  {
    var a, b := SuffixTable[i].0, SuffixTable[j].0;
    SuffixFree();
    if EndsWith(path, a) && EndsWith(path, b) {
      if |a| <= |b| { SharedSuffix(path, a, b); } else { SharedSuffix(path, b, a); }
    }
  }

  /** Every path ending in a listed suffix gets that suffix's mimetype, whatever the order of
      the tests, since no other suffix matches it. */
  lemma SuffixGivesMimetype(path: string, i: nat)
    requires i < |SuffixTable| && EndsWith(path, SuffixTable[i].0)
    ensures MimeTypeFor(path) == Some(SuffixTable[i].1)
  {
    forall j | 0 <= j < |SuffixTable| && j != i
      ensures !EndsWith(path, SuffixTable[j].0)
    {
      if j < i { SuffixesExclusive(path, j, i); } else { SuffixesExclusive(path, i, j); }
    }
    assert 0 != i ==> !EndsWith(path, SuffixTable[0].0);
    assert 1 != i ==> !EndsWith(path, SuffixTable[1].0);
    assert 2 != i ==> !EndsWith(path, SuffixTable[2].0);
    assert 3 != i ==> !EndsWith(path, SuffixTable[3].0);
    assert 4 != i ==> !EndsWith(path, SuffixTable[4].0);
    assert 5 != i ==> !EndsWith(path, SuffixTable[5].0);
    assert 6 != i ==> !EndsWith(path, SuffixTable[6].0);
    assert 7 != i ==> !EndsWith(path, SuffixTable[7].0);
    assert 8 != i ==> !EndsWith(path, SuffixTable[8].0);
    assert 9 != i ==> !EndsWith(path, SuffixTable[9].0);
    assert 10 != i ==> !EndsWith(path, SuffixTable[10].0);
  }

  /** A path with none of the listed suffixes gets no mimetype. */
  lemma UnlistedSuffix(path: string)
    requires forall i :: 0 <= i < |SuffixTable| ==> !EndsWith(path, SuffixTable[i].0)
    ensures MimeTypeFor(path) == None
  {
    assert !EndsWith(path, SuffixTable[0].0) && !EndsWith(path, SuffixTable[1].0) && !EndsWith(path, SuffixTable[2].0);
    assert !EndsWith(path, SuffixTable[3].0) && !EndsWith(path, SuffixTable[4].0) && !EndsWith(path, SuffixTable[5].0);
    assert !EndsWith(path, SuffixTable[6].0) && !EndsWith(path, SuffixTable[7].0) && !EndsWith(path, SuffixTable[8].0);
    assert !EndsWith(path, SuffixTable[9].0) && !EndsWith(path, SuffixTable[10].0);
  }

  /** A path whose last character differs from a suffix's does not end in it. */
  lemma LastDiffers(path: string, x: string)
    requires |path| > 0 && |x| > 0 && path[|path| - 1] != x[|x| - 1]
    ensures !EndsWith(path, x)
  {
    assert |x| <= |path| ==> path[|path| - |x|..][|x| - 1] == path[|path| - 1];
  }

  /** The tests are case-sensitive: an upper-case suffix is not recognised. */
  lemma UpperCaseNotRecognised()
    ensures MimeTypeFor("A.PNG") == None
  {
    var p := "A.PNG";
    LastDiffers(p, ".html"); LastDiffers(p, ".js"); LastDiffers(p, ".css"); LastDiffers(p, ".png");
    LastDiffers(p, ".jpg"); LastDiffers(p, ".jpeg"); LastDiffers(p, ".gif"); LastDiffers(p, ".svg");
    LastDiffers(p, ".ico"); LastDiffers(p, ".json"); LastDiffers(p, ".txt");
  }
}
