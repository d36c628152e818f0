/**
 * app/main/layout.tsx: on mount, the layout copies the access token from
 * local storage into a cookie when the cookie does not already carry one.
 * The cookie is read from `document.cookie`, a "; "-separated list of
 * `name=value` pairs (the `Cookie` header syntax of section 4.2.1 of
 * RFC 6265).
 */
module MainLayout {
  import opened Text
  import opened Wrappers
  import opened Seqs
  import opened Session

  /** The row prefix the lookup searches for. */
  const AccessTokenPrefix := "accessToken="

  /** A row of `document.cookie` that `row.startsWith("accessToken=")` accepts. */
  predicate IsTokenRow(row: string) {
    StartsWith(row, AccessTokenPrefix)
  }

  /** Without the separator's first character, a string holds no occurrence of the separator. */
  lemma NoSepWithoutFirstChar(s: string, sep: string)
    requires |sep| > 0 && sep[0] !in s
    ensures FindSep(s, sep) == |s|
  {
  }

  /** A token row splits on '=' into `accessToken` and the pieces of the rest. */
  lemma TokenRowSplit(row: string)
    requires IsTokenRow(row)
    ensures var rest := row[|AccessTokenPrefix|..];
      Split(row, "=") == [row[..|AccessTokenPrefix| - 1]] + Split(rest, "=")
  {
    var n := |AccessTokenPrefix|;
    assert OccursAt(row, "=", n - 1) by {
      assert row[n - 1..n] == AccessTokenPrefix[n - 1..n];
    }
    forall j: nat | j < n - 1
      ensures !OccursAt(row, "=", j)
    {
      assert row[j..j + 1] == [AccessTokenPrefix[j]];
    }
    assert FindSep(row, "=") == n - 1;
  }

  /**
   * `row.split("=")[1]` for a token row: the text after `accessToken=` up to
   * the next '=' (or the end of the row).
   */
  function RowValue(row: string): (v: string)
    requires IsTokenRow(row)
    ensures '=' !in v
    ensures StartsWith(row[|AccessTokenPrefix|..], v)
    ensures |AccessTokenPrefix| + |v| < |row| ==> row[|AccessTokenPrefix| + |v|] == '='
  {
    TokenRowSplit(row);
    FirstPieceEndsAtChar(row[|AccessTokenPrefix|..], '=');
    Split(row, "=")[1]
  }

  /**
   * The access token the cookie string carries: the value of the first row
   * that starts with `accessToken=`, cut at its next '='.
   */
  function CookieToken(cookie: string): (r: Option<string>)
    ensures r.None? <==> forall row | row in Split(cookie, "; ") :: !IsTokenRow(row)
    ensures r.Some? ==> exists i | 0 <= i < |Split(cookie, "; ")| ::
      var rows := Split(cookie, "; ");
      && IsTokenRow(rows[i]) && r.value == RowValue(rows[i])
      && forall j | 0 <= j < i :: !IsTokenRow(rows[j])
  {
    var rows := Split(cookie, "; ");
    match Find(rows, IsTokenRow)
    case None => None
    case Some(row) => Some(RowValue(row))
  }

  /** A lone token cookie whose value has no '=' and no ';' reads back as that value. */
  lemma TokenReadsBack(t: string)
    requires '=' !in t && ';' !in t
    ensures CookieToken(AccessTokenPrefix + t) == Some(t)
  {
    var cookie := AccessTokenPrefix + t;
    assert ';' !in cookie by {
      assert forall i | 0 <= i < |cookie| :: cookie[i] == if i < |AccessTokenPrefix| then AccessTokenPrefix[i] else t[i - |AccessTokenPrefix|];
    }
    NoSepWithoutFirstChar(cookie, "; ");
    assert Split(cookie, "; ") == [cookie];
    assert IsTokenRow(cookie);
    FindStep([cookie], IsTokenRow);
    var v := RowValue(cookie);
    assert cookie[|AccessTokenPrefix|..] == t;
    assert v == t;
  }

  /** A token value holding '=' is cut at its first '=': only the part before it is read back. */
  lemma TokenTruncatedAtEquals(a: string, b: string)
    requires '=' !in a && ';' !in a && ';' !in b
    ensures CookieToken(AccessTokenPrefix + a + "=" + b) == Some(a)
  {
    var cookie := AccessTokenPrefix + a + "=" + b;
    var n := |AccessTokenPrefix|;
    assert ';' !in cookie by {
      forall i | 0 <= i < |cookie|
        ensures cookie[i] != ';'
      {
        if i < n {
          assert cookie[i] == AccessTokenPrefix[i];
        } else if i < n + |a| {
          assert cookie[i] == a[i - n];
        } else if i > n + |a| {
          assert cookie[i] == b[i - n - |a| - 1];
        }
      }
    }
    NoSepWithoutFirstChar(cookie, "; ");
    assert Split(cookie, "; ") == [cookie];
    assert IsTokenRow(cookie) by {
      assert cookie[..n] == AccessTokenPrefix;
    }
    FindStep([cookie], IsTokenRow);
    var v := RowValue(cookie);
    assert cookie[n..] == a + "=" + b;
    assert cookie[n + |a|] == '=';
    assert v == a;
  }

  /**
   * The effect of the layout: a cookie write exactly when local storage
   * holds a non-empty token and the cookie lookup finds none or an empty one.
   */
  function SyncCookie(stored: Option<string>, cookie: string): (w: Option<Write>)
    ensures w.Some? <==> stored.Some? && stored.value != "" && (CookieToken(cookie).None? || CookieToken(cookie) == Some(""))
    ensures w.Some? ==> w.value == SetCookie(TokenCookie(AccessTokenKey, stored.value))
  {
    match stored
    case None => None
    case Some(token) =>
      if token == "" then None
      else match CookieToken(cookie)
        case Some(found) => if found != "" then None else Some(SetCookie(TokenCookie(AccessTokenKey, token)))
        case None => Some(SetCookie(TokenCookie(AccessTokenKey, token)))
  }

  /** Once the browser holds the written token, the next mount writes nothing. */
  lemma SyncSettles(token: string)
    requires token != "" && '=' !in token && ';' !in token
    ensures SyncCookie(Some(token), AccessTokenPrefix + token).None?
  {
    TokenReadsBack(token);
  }

  /** A cookie whose token row has an empty value is rewritten even though the row is present. */
  lemma EmptyTokenRowIsRewritten(token: string)
    requires token != ""
    ensures SyncCookie(Some(token), AccessTokenPrefix).Some?
  {
    TokenReadsBack("");
    assert AccessTokenPrefix + "" == AccessTokenPrefix;
  }
}
