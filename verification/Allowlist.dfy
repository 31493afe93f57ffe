/** Who a relay may send mail to (crates/mail/src/allow.rs). */
module Allowlists {
  import opened Options
  import opened Text

  datatype Entry = Domain(domain: string) | Address(address: string) | Any

  type Allowlist = seq<Entry>

  function ParseEntry(trimmed: string): Entry
    requires trimmed != []
  {
    var lower := Lower(trimmed);
    if lower == "*" then Any else if lower[0] == '@' then Domain(lower[1..]) else Address(lower)
  }

  function ParseParts(parts: seq<string>): Allowlist {
    if parts == [] then []
    else (if Trim(parts[0]) == [] then [] else [ParseEntry(Trim(parts[0]))]) + ParseParts(parts[1..])
  }

  function Parse(raw: string): Allowlist {
    ParseParts(Split(raw, ','))
  }

  predicate EntryPermits(entry: Entry, address: string, domain: string) {
    match entry
    case Any => true
    case Domain(allowed) => domain == allowed
    case Address(allowed) => address == allowed
  }

  predicate Permits(list: Allowlist, raw: string) {
    var address := Lower(Trim(raw));
    var split := RSplitOnce(address, '@');
    split.Some? && exists i :: 0 <= i < |list| && EntryPermits(list[i], address, split.value.right)
  }

  function ShowEntry(entry: Entry): string {
    match entry
    case Any => "*"
    case Domain(domain) => "@" + domain
    case Address(address) => address
  }

  function ShowEntries(list: Allowlist): string
    requires list != []
  {
    if |list| == 1 then ShowEntry(list[0]) else ShowEntry(list[0]) + [','] + (" " + ShowEntries(list[1..]))
  }

  const NONE_TEXT := "(none \U{2014} every relay send is refused)"

  function Show(list: Allowlist): string {
    if list == [] then NONE_TEXT else ShowEntries(list)
  }

  // ----- Parsing part by part -----

  lemma {:induction false} PartsAppend(a: seq<string>, b: seq<string>)
    ensures ParseParts(a + b) == ParseParts(a) + ParseParts(b)
  {
    if a == [] {
      assert a + b == b;
    } else {
      assert (a + b)[1..] == a[1..] + b;
      PartsAppend(a[1..], b);
    }
  }

  /** A comma joins lists: whatever the two texts are, their entries follow one another. */
  lemma ParseJoined(a: string, b: string)
    ensures Parse(a + [','] + b) == Parse(a) + Parse(b)
  {
    SplitJoined(a, b, ',');
    PartsAppend(Split(a, ','), Split(b, ','));
  }

  /** So what a joined list permits is what either part permits. */
  lemma JoinedPermitsEither(a: string, b: string, address: string)
    ensures Permits(Parse(a + [','] + b), address) <==> Permits(Parse(a), address) || Permits(Parse(b), address)
  {
    ParseJoined(a, b);
    PermitsAppend(Parse(a), Parse(b), address);
  }

  lemma PermitsAppend(a: Allowlist, b: Allowlist, raw: string)
    ensures Permits(a + b, raw) <==> Permits(a, raw) || Permits(b, raw)
  {
    var address := Lower(Trim(raw));
    var split := RSplitOnce(address, '@');
    if split.Some? {
      forall i | 0 <= i < |a| && EntryPermits(a[i], address, split.value.right)
        ensures EntryPermits((a + b)[i], address, split.value.right)
      {
      }
      forall i | 0 <= i < |b| && EntryPermits(b[i], address, split.value.right)
        ensures EntryPermits((a + b)[|a| + i], address, split.value.right)
      {
      }
    }
  }

  // ----- What is permitted -----

  /** A domain entry permits exactly the addresses that end, after trimming and lower-casing, in an `@` and that domain,
      with no further `@`; so the last `@` decides, and neither a longer nor a shorter domain will do. */
  lemma DomainPermitsIff(domain: string, raw: string)
    ensures Permits([Domain(domain)], raw) <==>
      '@' !in domain && exists user :: Lower(Trim(raw)) == user + ['@'] + domain
  {
    var address := Lower(Trim(raw));
    RSplitOnceParts(address, '@');
    if Permits([Domain(domain)], raw) {
      assert EntryPermits([Domain(domain)][0], address, domain);
      assert address == RSplitOnce(address, '@').value.left + ['@'] + domain;
    }
    if '@' !in domain && exists user :: address == user + ['@'] + domain {
      var user :| address == user + ['@'] + domain;
      RSplitOnceAt(user, domain, '@');
      assert EntryPermits([Domain(domain)][0], address, domain);
    }
  }

  lemma AddressPermitsIff(allowed: string, raw: string)
    ensures Permits([Address(allowed)], raw) <==> '@' in allowed && Lower(Trim(raw)) == allowed
  {
    var address := Lower(Trim(raw));
    RSplitOnceParts(address, '@');
    if address == allowed && RSplitOnce(address, '@').Some? {
      assert EntryPermits([Address(allowed)][0], address, RSplitOnce(address, '@').value.right);
    }
  }

  /** A list with the entry for everybody, which is written `*`, permits exactly what has an `@`. */
  lemma AnyPermitsIff(list: Allowlist, raw: string)
    requires Any in list
    ensures Permits(list, raw) <==> '@' in Lower(Trim(raw))
    ensures Parse("*") == [Any]
  {
    var address := Lower(Trim(raw));
    RSplitOnceParts(address, '@');
    if RSplitOnce(address, '@').Some? {
      var i :| 0 <= i < |list| && list[i] == Any;
      assert EntryPermits(list[i], address, RSplitOnce(address, '@').value.right);
    }
    ReadableReads(Any);
  }

  /** A list permits nothing without an `@`, and an empty list permits nothing at all. */
  lemma RefusesByDefault(list: Allowlist, raw: string)
    ensures '@' !in Lower(Trim(raw)) || list == [] ==> !Permits(list, raw)
  {
    RSplitOnceParts(Lower(Trim(raw)), '@');
  }

  // ----- The printer and the parser agree -----

  /** What every parsed entry looks like when shown. */
  predicate Readable(entry: Entry) {
    var text := ShowEntry(entry);
    && text != [] && Trimmed(text) && Lower(text) == text && ',' !in text
    && (entry.Address? ==> text != "*" && text[0] != '@')
  }

  lemma ParsedIsReadable(part: string)
    requires Trim(part) != [] && ',' !in part
    ensures Readable(ParseEntry(Trim(part)))
    ensures ShowEntry(ParseEntry(Trim(part))) == Lower(Trim(part))
  {
    TrimTrims(part);
    LowerAgain(Trim(part));
    LowerKeepsShape(Trim(part));
    var lower := Lower(Trim(part));
    if lower != "*" && lower[0] == '@' {
      assert "@" + lower[1..] == lower;
    }
  }

  lemma {:induction false} PartsAreReadable(parts: seq<string>)
    requires forall part :: part in parts ==> ',' !in part
    ensures forall i :: 0 <= i < |ParseParts(parts)| ==> Readable(ParseParts(parts)[i])
  {
    if parts != [] {
      PartsAreReadable(parts[1..]);
      if Trim(parts[0]) != [] {
        ParsedIsReadable(parts[0]);
      }
    }
  }

  lemma ReadableReads(entry: Entry)
    requires Readable(entry)
    ensures Parse(ShowEntry(entry)) == [entry]
  {
    var text := ShowEntry(entry);
    SplitWhole(text, ',');
    TrimmedStays(text);
    EntryReads(entry);
    var parts := Split(text, ',');
    assert parts[0] == text && parts[1..] == [];
    assert ParseParts(parts[1..]) == [];
  }

  lemma EntryReads(entry: Entry)
    requires Readable(entry)
    ensures ParseEntry(ShowEntry(entry)) == entry
  {
    var text := ShowEntry(entry);
    if entry.Domain? {
      assert text[0] == '@' && "*"[0] == '*';
      assert text[1..] == entry.domain;
    } else if entry.Any? {
      assert Lower(text) == "*";
    } else {
      assert Lower(text) != "*" && Lower(text)[0] != '@';
    }
  }

  lemma LeadingSpaceReads(text: string)
    ensures Parse(" " + text) == Parse(text)
  {
    var parts := Split(text, ',');
    assert (" " + text)[0] == ' ' && (" " + text)[1..] == text;
    assert Split(" " + text, ',') == [[' '] + parts[0]] + parts[1..];
    assert [' '] + parts[0] == " " + parts[0];
    TrimSkipsOne(parts[0]);
    assert ([[' '] + parts[0]] + parts[1..])[1..] == parts[1..];
  }

  lemma {:induction false} ReadableListReads(list: Allowlist)
    requires list != [] && forall i :: 0 <= i < |list| ==> Readable(list[i])
    ensures Parse(ShowEntries(list)) == list
  {
    ReadableReads(list[0]);
    if |list| == 1 {
      assert list == [list[0]];
    } else {
      ReadableListReads(list[1..]);
      ParseJoined(ShowEntry(list[0]), " " + ShowEntries(list[1..]));
      LeadingSpaceReads(ShowEntries(list[1..]));
      assert list == [list[0]] + list[1..];
    }
  }

  lemma NoneTextReads()
    ensures Parse(NONE_TEXT) != []
  {
    var text := NONE_TEXT;
    assert text[0] == '(' && text[|text| - 1] == ')';
    assert Trimmed(text);
    TrimmedStays(text);
    assert ',' !in text;
    SplitWhole(text, ',');
  }

  /** Reading back what was shown gives the same list, whatever text it was parsed from, exactly when it is not empty:
      an empty list is shown as a sentence, and that sentence reads as an entry. */
  lemma ShowReadsBackIff(raw: string)
    ensures Parse(Show(Parse(raw))) == Parse(raw) <==> Parse(raw) != []
  {
    var list := Parse(raw);
    PartsHaveNoSeparator(raw, ',');
    PartsAreReadable(Split(raw, ','));
    if list == [] {
      NoneTextReads();
    } else {
      ReadableListReads(list);
    }
  }
}
