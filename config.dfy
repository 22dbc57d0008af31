/** The administrator rule of the client configuration. */
module Config {

  /** `s.split(sep)`: the pieces between occurrences of `sep`; a string without
      `sep` is one piece, and `sep` at either end gives an empty piece there. */
  function Split(s: string, sep: char): (parts: seq<string>)
    ensures |parts| >= 1
    decreases |s|
  {
    if |s| == 0 then [""]
    else
      var rest := Split(s[1..], sep);
      if s[0] == sep then [""] + rest else [[s[0]] + rest[0]] + rest[1..]
  }

  /** `parts.join(sep)`. */
  function Join(parts: seq<string>, sep: char): string
    requires |parts| >= 1
    decreases |parts|
  {
    if |parts| == 1 then parts[0] else parts[0] + [sep] + Join(parts[1..], sep)
  }

  /** Splitting loses nothing but the separators: joining the pieces gives the
      string back, and no piece contains the separator. */
  lemma {:induction false} SplitJoin(s: string, sep: char)
    ensures Join(Split(s, sep), sep) == s
    ensures forall i :: 0 <= i < |Split(s, sep)| ==> sep !in Split(s, sep)[i]
    decreases |s|
  {
    if |s| > 0 {
      SplitJoin(s[1..], sep);
      var rest := Split(s[1..], sep);
      if s[0] == sep {
        assert Split(s, sep)[1..] == rest;
      } else {
        var parts := Split(s, sep);
        assert parts[0] == [s[0]] + rest[0];
        if |rest| > 1 {
          assert parts[1..] == rest[1..];
          assert Join(rest, sep) == rest[0] + [sep] + Join(rest[1..], sep);
        }
        assert s == [s[0]] + s[1..];
        forall i | 0 <= i < |parts| ensures sep !in parts[i] {
          if i > 0 {
            assert parts[i] == rest[i];
          }
        }
      }
    }
  }

  /** The first piece of `head + tail` is `head` when `head` has no separator and
      `tail` is empty or starts with one. */
  lemma {:induction false} SplitFirstPiece(head: string, tail: string, sep: char)
    requires sep !in head
    requires tail == [] || tail[0] == sep
    ensures Split(head + tail, sep)[0] == head
    decreases |head|
  {
    if |head| > 0 {
      SplitFirstPiece(head[1..], tail, sep);
      assert (head + tail)[1..] == head[1..] + tail;
      assert head == [head[0]] + head[1..];
    } else {
      assert head + tail == tail;
    }
  }

  /** Splitting at the first separator: the part before it is the first piece and
      the rest is split on its own. */
  lemma {:induction false} SplitAtFirst(local: string, rest: string, sep: char)
    requires sep !in local
    ensures Split(local + [sep] + rest, sep) == [local] + Split(rest, sep)
    decreases |local|
  {
    if |local| > 0 {
      SplitAtFirst(local[1..], rest, sep);
      assert (local + [sep] + rest)[1..] == local[1..] + [sep] + rest;
      assert local == [local[0]] + local[1..];
    } else {
      assert local + [sep] + rest == [sep] + rest;
    }
  }

  /** The hosts whose addresses are administrators. */
  predicate AdminHost(host: string) {
    host == "zdf.digital" || host == "zdf-digital.com"
  }

  /** `emailIsAdmin`: the second piece of the address split on '@' is an admin host;
      without '@' there is no second piece and the answer is false. */
  function EmailIsAdmin(email: string): (isAdmin: bool)
    ensures isAdmin ==> '@' in email
  {
    var parts := Split(email, '@');
    assert |parts| > 1 ==> '@' in email by {
      if '@' !in email {
        SplitWithoutSep(email, '@');
      }
    }
    |parts| > 1 && AdminHost(parts[1])
  }

  /** A string without the separator is a single piece. */
  lemma {:induction false} SplitWithoutSep(s: string, sep: char)
    requires sep !in s
    ensures Split(s, sep) == [s]
    decreases |s|
  {
    if |s| > 0 {
      SplitWithoutSep(s[1..], sep);
      assert s == [s[0]] + s[1..];
    }
  }

  /** An address without '@' is never an administrator's. */
  lemma NoAtIsNotAdmin(email: string)
    requires '@' !in email
    ensures !EmailIsAdmin(email)
  {
    SplitWithoutSep(email, '@');
  }

  /** The answer depends only on the segment between the first '@' and the next one
      (or the end): it is an administrator's address iff that segment is exactly
      'zdf.digital' or 'zdf-digital.com'. */
  lemma IsAdminIffHost(local: string, host: string, tail: string)
    requires '@' !in local && '@' !in host
    requires tail == [] || tail[0] == '@'
    ensures EmailIsAdmin(local + "@" + host + tail) <==> AdminHost(host)
  {
    SplitAtFirst(local, host + tail, '@');
    assert local + "@" + host + tail == local + ['@'] + (host + tail);
    SplitFirstPiece(host, tail, '@');
  }

  /** The local part before the first '@' never affects the result. */
  lemma LocalPartIrrelevant(local: string, other: string, rest: string)
    requires '@' !in local && '@' !in other
    ensures EmailIsAdmin(local + "@" + rest) == EmailIsAdmin(other + "@" + rest)
  {
    SplitAtFirst(local, rest, '@');
    SplitAtFirst(other, rest, '@');
  }

  /** With several '@' the segment between the first two decides:
      'x@zdf.digital@other.com' is an administrator's address. */
  lemma SeveralAts(local: string)
    requires '@' !in local
    ensures EmailIsAdmin(local + "@zdf.digital@other.com")
  {
    IsAdminIffHost(local, "zdf.digital", "@other.com");
    assert local + "@" + "zdf.digital" + "@other.com" == local + "@zdf.digital@other.com";
  }

  /** ... and 'x@other.com@zdf.digital' is not, although it ends in an admin host. */
  lemma SeveralAtsLaterHostIgnored(local: string)
    requires '@' !in local
    ensures !EmailIsAdmin(local + "@other.com@zdf.digital")
  {
    IsAdminIffHost(local, "other.com", "@zdf.digital");
    assert local + "@" + "other.com" + "@zdf.digital" == local + "@other.com@zdf.digital";
  }

  /** An address at 'zdf.digital' is an administrator's. */
  lemma AdminHostDotDigital(local: string)
    requires '@' !in local
    ensures EmailIsAdmin(local + "@zdf.digital")
  {
    IsAdminIffHost(local, "zdf.digital", "");
    assert local + "@" + "zdf.digital" + "" == local + "@zdf.digital";
  }

  /** An address at 'zdf-digital.com' is an administrator's. */
  lemma AdminHostDotCom(local: string)
    requires '@' !in local
    ensures EmailIsAdmin(local + "@zdf-digital.com")
  {
    IsAdminIffHost(local, "zdf-digital.com", "");
    assert local + "@" + "zdf-digital.com" + "" == local + "@zdf-digital.com";
  }

  /** Matching is case-sensitive: 'ZDF.digital' is not an admin host. */
  lemma HostCaseSensitive(local: string)
    requires '@' !in local
    ensures !EmailIsAdmin(local + "@ZDF.digital")
  {
    IsAdminIffHost(local, "ZDF.digital", "");
    assert local + "@" + "ZDF.digital" + "" == local + "@ZDF.digital";
  }

  /** Matching is exact: the subdomain 'mail.zdf.digital' is not an admin host. */
  lemma SubdomainNotAdmin(local: string)
    requires '@' !in local
    ensures !EmailIsAdmin(local + "@mail.zdf.digital")
  {
    IsAdminIffHost(local, "mail.zdf.digital", "");
    assert local + "@" + "mail.zdf.digital" + "" == local + "@mail.zdf.digital";
  }
}
