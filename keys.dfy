/** Key templates of lib/carto_metadata.js, each written as plain string
    concatenation, and the day stamp `getMapViewKey` builds. */
module Keys {
  import opened Decimal

  /** `rate_limits_store_key`: the list that holds a subject's limit
      definitions. When the three identifiers hold no colon, the key splits
      back into its fixed prefix and the three identifiers. */
  function RateLimitsStoreKey(username: string, app: string, endpointGroup: string): (key: string)
    ensures ':' !in username && ':' !in app && ':' !in endpointGroup ==>
              SplitColons(key) == ["limits", "rate", "store", username, app, endpointGroup]
  {
    var key := "limits:rate:store:" + username + ":" + app + ":" + endpointGroup;
    assert ':' !in username && ':' !in app && ':' !in endpointGroup ==>
             SplitColons(key) == ["limits", "rate", "store", username, app, endpointGroup] by {
      if ':' !in username && ':' !in app && ':' !in endpointGroup {
        assert "limits:rate:store:" == "limits" + ":" + "rate" + ":" + "store" + ":";
        SplitSubjectKey("store", username, app, endpointGroup);
      }
    }
    key
  }

  /** `rate_limits_status_key`: the prefix of a subject's throttle counters;
      it splits back the same way, with `status` as its third field. */
  function RateLimitsStatusKey(username: string, app: string, endpointGroup: string): (key: string)
    ensures ':' !in username && ':' !in app && ':' !in endpointGroup ==>
              SplitColons(key) == ["limits", "rate", "status", username, app, endpointGroup]
  {
    var key := "limits:rate:status:" + username + ":" + app + ":" + endpointGroup;
    assert ':' !in username && ':' !in app && ':' !in endpointGroup ==>
             SplitColons(key) == ["limits", "rate", "status", username, app, endpointGroup] by {
      if ':' !in username && ':' !in app && ':' !in endpointGroup {
        assert "limits:rate:status:" == "limits" + ":" + "rate" + ":" + "status" + ":";
        SplitSubjectKey("status", username, app, endpointGroup);
      }
    }
    key
  }

  /** The colon-separated fields of a key. */
  function SplitColons(s: string): (r: seq<string>)
    ensures |r| >= 1
    decreases |s|
  {
    if s == [] then [""]
    else
      var rest := SplitColons(s[1..]);
      if s[0] == ':' then [""] + rest else [[s[0]] + rest[0]] + rest[1..]
  }

  lemma {:induction false} SplitColonsField(a: string)
    requires ':' !in a
    ensures SplitColons(a) == [a]
    decreases |a|
  {
    if a != [] {
      SplitColonsField(a[1..]);
      assert [a[0]] + a[1..] == a;
    }
  }

  /** A colon-free last field splits off as the last element. */
  lemma {:induction false} SplitColonsSnoc(x: string, b: string)
    requires ':' !in b
    ensures SplitColons(x + ":" + b) == SplitColons(x) + [b]
    decreases |x|
  {
    SplitColonsField(b);
    if x == [] {
      assert x + ":" + b == [':'] + b;
      assert (x + ":" + b)[1..] == b;
    } else {
      assert (x + ":" + b)[0] == x[0];
      assert (x + ":" + b)[1..] == x[1..] + ":" + b;
      SplitColonsSnoc(x[1..], b);
    }
  }

  /** A rate-limit key of the given kind, written field by field, splits
      back into its six fields when none of them holds a colon. */
  lemma SplitSubjectKey(kind: string, username: string, app: string, endpointGroup: string)
    requires ':' !in kind && ':' !in username && ':' !in app && ':' !in endpointGroup
    ensures SplitColons("limits" + ":" + "rate" + ":" + kind + ":" + username + ":" + app + ":" + endpointGroup)
            == ["limits", "rate", kind, username, app, endpointGroup]
  {
    SplitColonsField("limits");
    var p1 := "limits" + ":" + "rate";
    SplitColonsSnoc("limits", "rate");
    assert SplitColons(p1) == ["limits", "rate"];
    var p2 := p1 + ":" + kind;
    SplitColonsSnoc(p1, kind);
    assert SplitColons(p2) == ["limits", "rate", kind];
    var p3 := p2 + ":" + username;
    SplitColonsSnoc(p2, username);
    assert SplitColons(p3) == ["limits", "rate", kind, username];
    var p4 := p3 + ":" + app;
    SplitColonsSnoc(p3, app);
    assert SplitColons(p4) == ["limits", "rate", kind, username, app];
    SplitColonsSnoc(p4, endpointGroup);
  }

  /** Subjects whose identifiers hold no colon never share a definitions
      list or a counters prefix. */
  lemma SubjectKeysInjective(u1: string, a1: string, e1: string, u2: string, a2: string, e2: string)
    requires ':' !in u1 && ':' !in a1 && ':' !in e1
    requires ':' !in u2 && ':' !in a2 && ':' !in e2
    ensures RateLimitsStoreKey(u1, a1, e1) == RateLimitsStoreKey(u2, a2, e2) ==> u1 == u2 && a1 == a2 && e1 == e2
    ensures RateLimitsStatusKey(u1, a1, e1) == RateLimitsStatusKey(u2, a2, e2) ==> u1 == u2 && a1 == a2 && e1 == e2
  {
  }

  /** Without the colon restriction two subjects can collide: the key
      template does not escape the separator. */
  lemma StoreKeyCollision()
    ensures RateLimitsStoreKey("a:b", "c", "d") == RateLimitsStoreKey("a", "b:c", "d")
  {
  }

  /** A definitions list key never equals a key under any counters prefix,
      whatever the identifiers. */
  lemma StoreKeyIsNotStatusPrefixed(u1: string, a1: string, e1: string, u2: string, a2: string, e2: string, suffix: string)
    ensures RateLimitsStoreKey(u1, a1, e1) != RateLimitsStatusKey(u2, a2, e2) + suffix
  {
    assert RateLimitsStoreKey(u1, a1, e1)[14] == 'o';
    assert (RateLimitsStatusKey(u2, a2, e2) + suffix)[14] == 'a';
  }

  /** A month or day printed with a leading zero below 10. */
  function TwoDigits(n: nat): (s: string)
    requires 1 <= n <= 99
  {
    (if n < 10 then "0" else "") + FromNat(n)
  }

  /** `getMapViewKey`: the day stamp YYYYMMDD of the calendar date it is
      given (the clock reading `new Date()` is the caller's argument here).
      Month and day always take the last four digits, so the stamp reads
      back as the date it encodes, whatever the width of the year. */
  function MapViewKey(year: nat, month: nat, day: nat): (key: string)
    requires 1 <= month <= 12 && 1 <= day <= 31
    ensures |key| >= 5 && AllDigits(key)
    ensures ToNat(key[..|key| - 4]) == year
    ensures ToNat(key[|key| - 4..|key| - 2]) == month && ToNat(key[|key| - 2..]) == day
  {
    ToNatFromNat(year);
    TwoDigitsRoundTrip(month);
    TwoDigitsRoundTrip(day);
    StampParts(FromNat(year), TwoDigits(month), TwoDigits(day));
    FromNat(year) + TwoDigits(month) + TwoDigits(day)
  }

  /** A stamp made of a year part and two two-character parts splits back
      into them by position from the end. */
  lemma StampParts(y: string, m: string, d: string)
    requires |m| == 2 && |d| == 2
    ensures var k := y + m + d;
            k[..|k| - 4] == y && k[|k| - 4..|k| - 2] == m && k[|k| - 2..] == d
  {
    var k := y + m + d;
    assert k[..|y|] == y;
    assert k[|y|..|y| + 2] == m;
    assert k[|y| + 2..] == d;
  }

  lemma TwoDigitsRoundTrip(n: nat)
    requires 1 <= n <= 99
    ensures |TwoDigits(n)| == 2 && AllDigits(TwoDigits(n)) && ToNat(TwoDigits(n)) == n
  {
    if n < 10 {
      FromNatWidth(n, 1);
      var s := TwoDigits(n);
      assert s == ['0', DigitChar(n)];
      assert s[..1] == ['0'] && s[..1][..0] == [];
      assert ToNat(s[..1]) == 0;
    } else {
      FromNatWidth(n, 2);
      ToNatFromNat(n);
    }
  }

  /** For a four-digit year the stamp is exactly eight digits: four for the
      year, two for the month, two for the day. */
  lemma MapViewKeyRoundTrip(year: nat, month: nat, day: nat)
    requires 1000 <= year <= 9999 && 1 <= month <= 12 && 1 <= day <= 31
    ensures var k := MapViewKey(year, month, day);
            && |k| == 8 && AllDigits(k)
            && ToNat(k[..4]) == year && ToNat(k[4..6]) == month && ToNat(k[6..]) == day
  {
    assert Pow10(4) == 10000 && Pow10(3) == 1000;
    FromNatWidth(year, 4);
    TwoDigitsRoundTrip(month);
    TwoDigitsRoundTrip(day);
  }

  /** Distinct dates get distinct stamps, for every year. */
  lemma MapViewKeyInjective(y1: nat, m1: nat, d1: nat, y2: nat, m2: nat, d2: nat)
    requires 1 <= m1 <= 12 && 1 <= d1 <= 31
    requires 1 <= m2 <= 12 && 1 <= d2 <= 31
    requires MapViewKey(y1, m1, d1) == MapViewKey(y2, m2, d2)
    ensures y1 == y2 && m1 == m2 && d1 == d2
  {
  }
}
