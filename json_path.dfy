/**
 * MySQL's `JSON_SET(doc, '$.a.b', v)` on the member paths a feature key produces:
 * the path text is split at dots, every member must be an identifier, and the value
 * is written only where every parent member already holds an object.
 */
module JsonPath {
  import opened Wrappers
  import opened Js

  predicate IsIdentStart(c: char) {
    ('a' <= c <= 'z') || ('A' <= c <= 'Z') || c == '_' || c == '$'
  }

  /** An unquoted member name of a JSON path (an ASCII ECMAScript identifier). */
  predicate IsIdentifier(s: string) {
    && |s| > 0
    && IsIdentStart(s[0])
    && forall i :: 1 <= i < |s| ==> IsIdentStart(s[i]) || IsDigit(s[i])
  }

  /** The text between the dots of `s`. */
  function Split(s: string): (parts: seq<string>)
    ensures |parts| >= 1
    ensures forall i :: 0 <= i < |parts| ==> '.' !in parts[i]
    decreases |s|
  {
    if '.' in s then
      var i := IndexOf(s, '.');
      [s[..i]] + Split(s[i + 1..])
    else [s]
  }

  /** The members written back with dots between them. */
  function Join(parts: seq<string>): string
    requires |parts| >= 1
  {
    if |parts| == 1 then parts[0] else parts[0] + "." + Join(parts[1..])
  }

  /** Splitting loses nothing: joining the parts gives the text back. */
  lemma {:induction false} JoinSplit(s: string)
    ensures Join(Split(s)) == s
    decreases |s|
  {
    if '.' in s {
      var i := IndexOf(s, '.');
      var rest := s[i + 1..];
      JoinSplit(rest);
      assert Split(s)[1..] == Split(rest);
      assert s == s[..i] + "." + rest;
    }
  }

  /** The members of `$.<key>`, or `None` when MySQL rejects the path. */
  function MemberPath(key: string): (r: Option<seq<string>>)
    ensures r.Some? ==> |r.value| >= 1 && Join(r.value) == key
    ensures r.Some? ==> forall i :: 0 <= i < |r.value| ==> IsIdentifier(r.value[i])
    ensures r.None? ==> exists i :: 0 <= i < |Split(key)| && !IsIdentifier(Split(key)[i])
  {
    JoinSplit(key);
    var parts := Split(key);
    if forall i :: 0 <= i < |parts| ==> IsIdentifier(parts[i]) then Some(parts) else None
  }

  /** `JSON_SET` at a member path: only an object takes a member; a missing parent leaves the document as it is. */
  function SetPath(doc: JsVal, path: seq<string>, v: JsVal): JsVal
    requires |path| >= 1
    decreases |path|
  {
    if !doc.Obj? then doc
    else if |path| == 1 then Obj(doc.fields[path[0] := v])
    else if path[0] in doc.fields then Obj(doc.fields[path[0] := SetPath(doc.fields[path[0]], path[1..], v)])
    else doc
  }

  /** `JSON_EXTRACT` at a member path. */
  function GetPath(doc: JsVal, path: seq<string>): Option<JsVal>
    requires |path| >= 1
    decreases |path|
  {
    if !doc.Obj? || path[0] !in doc.fields then None
    else if |path| == 1 then Some(doc.fields[path[0]])
    else GetPath(doc.fields[path[0]], path[1..])
  }

  /** Every proper prefix of the path leads to an object, so `JSON_SET` can write the last member. */
  predicate ParentsExist(doc: JsVal, path: seq<string>)
    requires |path| >= 1
    decreases |path|
  {
    && doc.Obj?
    && (|path| > 1 ==> path[0] in doc.fields && ParentsExist(doc.fields[path[0]], path[1..]))
  }

  /** Reading back what was just set gives the value; without the parents nothing is written. */
  lemma {:induction false} GetAfterSet(doc: JsVal, path: seq<string>, v: JsVal)
    requires |path| >= 1
    ensures ParentsExist(doc, path) ==> GetPath(SetPath(doc, path, v), path) == Some(v)
    ensures !ParentsExist(doc, path) ==> SetPath(doc, path, v) == doc
    decreases |path|
  {
    if doc.Obj? && |path| > 1 && path[0] in doc.fields {
      GetAfterSet(doc.fields[path[0]], path[1..], v);
      if !ParentsExist(doc, path) {
        assert SetPath(doc.fields[path[0]], path[1..], v) == doc.fields[path[0]];
        assert doc.fields[path[0] := doc.fields[path[0]]] == doc.fields;
      }
    }
  }

  /** Setting one top-level member leaves every other top-level member as it was. */
  lemma SetPathKeepsOtherMembers(doc: JsVal, path: seq<string>, v: JsVal, other: string)
    requires |path| >= 1 && other != path[0]
    ensures GetPath(SetPath(doc, path, v), [other]) == GetPath(doc, [other])
  {
  }
}
