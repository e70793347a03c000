/**
 * The navigation header: a link is highlighted when the current path is its URL or lies
 * below it.
 */
module AppHeaderView {
  import opened Text

  const StudentsUrl := "/estudiantes"
  const PaymentsUrl := "/pagos"

  /** `isActive(url)` for the current path `path`. */
  predicate IsActive(path: string, url: string) {
    path == url || StartsWith(path, url + "/")
  }

  /** A link is active exactly on its own URL and on the paths one or more segments below it,
      so an active path always begins with the URL. */
  lemma IsActiveExact(path: string, url: string)
    ensures IsActive(path, url) <==> path == url || exists rest :: path == url + "/" + rest
    ensures IsActive(path, url) ==> StartsWith(path, url)
  {
    if StartsWith(path, url + "/") {
      var rest := path[|url| + 1..];
      assert path == url + "/" + rest;
    }
    if exists rest :: path == url + "/" + rest {
      var rest :| path == url + "/" + rest;
      assert path[..|url + "/"|] == url + "/";
    }
    if IsActive(path, url) && path != url {
      assert path[..|url|] == (url + "/")[..|url|];
    }
  }

  /** The student link stays active on a student's payment page, but not on a path that only
      shares its letters. */
  lemma StudentLinkExamples()
    ensures IsActive("/estudiantes", StudentsUrl)
    ensures IsActive("/estudiantes/EST-001/pagos", StudentsUrl)
    ensures !IsActive("/estudiantesX", StudentsUrl)
    ensures !IsActive("/", StudentsUrl)
  {
    assert "/estudiantes/EST-001/pagos"[..13] == "/estudiantes/";
    assert "/estudiantesX"[12] != '/';
  }

  /** The two links are never highlighted together. */
  lemma NeverBothActive(path: string)
    ensures !(IsActive(path, StudentsUrl) && IsActive(path, PaymentsUrl))
  {
    IsActiveExact(path, StudentsUrl);
    IsActiveExact(path, PaymentsUrl);
    if IsActive(path, StudentsUrl) {
      assert path[1] == StudentsUrl[1] == 'e';
    }
    if IsActive(path, PaymentsUrl) {
      assert path[1] == PaymentsUrl[1] == 'p';
    }
  }
}
