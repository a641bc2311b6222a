/**
 * The response normaliser `generateReturn` (index.js:177-196): a stored
 * document becomes the fh.db envelope `{type, guid, fields}`, where `guid` is
 * the rendered `_id` and `fields` holds every other property in enumeration
 * order.
 */
module Envelopes {
  import opened JsValues
  import opened ObjectIds

  /** `retDoc.fields[field] = document[field]` for each enumerated field but `_id`. */
  function CopyFields(acc: seq<Prop>, entries: seq<Prop>): seq<Prop>
    decreases |entries|
  {
    if entries == [] then acc
    else if entries[0].key == "_id" then CopyFields(acc, entries[1..])
    else CopyFields(Assign(acc, entries[0].key, entries[0].val), entries[1..])
  }

  /** The enumerated properties other than `_id`, in order. */
  function NonIdEntries(entries: seq<Prop>): (r: seq<Prop>)
    ensures |r| <= |entries|
    ensures forall i :: 0 <= i < |r| ==> r[i].key != "_id"
    decreases |entries|
  {
    if entries == [] then []
    else if entries[0].key == "_id" then NonIdEntries(entries[1..])
    else [entries[0]] + NonIdEntries(entries[1..])
  }

  /** `type` and `guid`, written when the document has a truthy `_id`. */
  function Head(document: Value, typ: Value): seq<Prop> {
    var id := Get(document, "_id");
    if Truthy(id) then [Prop("type", typ), Prop("guid", Str(ToText(id)))] else []
  }

  /** The envelope `generateReturn(document, type)` returns. */
  function Envelope(document: Value, typ: Value): Value {
    if Nullish(document) then Obj([])
    else
      var copied := CopyFields([], Entries(document));
      Obj(if copied == [] then Head(document, typ) else Head(document, typ) + [Prop("fields", Obj(copied))])
  }

  lemma AssignLast(h: seq<Prop>, k: string, v: Value, w: Value)
    requires k !in KeySet(h)
    ensures Assign(h + [Prop(k, v)], k, w) == h + [Prop(k, w)]
  {
    var ps := h + [Prop(k, v)];
    forall j | 0 <= j < |h| ensures ps[j].key != k {
      assert ps[j].key in KeySet(h);
    }
    IndexOfUnique(ps, k, |h|);
  }

  /** Writing into the `fields` object that ends the envelope. */
  lemma FieldsWrite(head: seq<Prop>, c: seq<Prop>, k: string, v: Value)
    requires "fields" !in KeySet(head)
    ensures Lookup(head + [Prop("fields", Obj(c))], "fields") == Obj(c)
    ensures Assign(head + [Prop("fields", Obj(c))], "fields", Obj(Assign(c, k, v)))
         == head + [Prop("fields", Obj(Assign(c, k, v)))]
  {
    assert Assign(head, "fields", Obj(c)) == head + [Prop("fields", Obj(c))];
    AssignLast(head, "fields", Obj(c), Obj(Assign(c, k, v)));
  }

  lemma HeadWrites(document: Value, typ: Value)
    requires Truthy(Get(document, "_id"))
    ensures Assign(Assign([], "type", typ), "guid", Str(ToText(Get(document, "_id")))) == Head(document, typ)
    ensures "fields" !in KeySet(Head(document, typ))
  {
    assert "type"[0] != "guid"[0] && "fields"[0] != "type"[0] && "fields"[0] != "guid"[0];
    AssignTwo("type", typ, "guid", Str(ToText(Get(document, "_id"))));
  }

  lemma CopyFieldsStep(acc: seq<Prop>, entries: seq<Prop>, k: nat)
    requires k < |entries|
    ensures CopyFields(acc, entries[..k + 1]) ==
      if entries[k].key == "_id" then CopyFields(acc, entries[..k])
      else Assign(CopyFields(acc, entries[..k]), entries[k].key, entries[k].val)
    decreases k
  {
    if k > 0 {
      var next := if entries[0].key == "_id" then acc else Assign(acc, entries[0].key, entries[0].val);
      CopyFieldsPrefix(acc, entries, k + 1);
      CopyFieldsPrefix(acc, entries, k);
      CopyFieldsStep(next, entries[1..], k - 1);
    }
  }

  lemma CopyFieldsPrefix(acc: seq<Prop>, entries: seq<Prop>, n: nat)
    requires 0 < n <= |entries|
    ensures CopyFields(acc, entries[..n]) ==
      CopyFields(if entries[0].key == "_id" then acc else Assign(acc, entries[0].key, entries[0].val), entries[1..][..n - 1])
  {
    assert entries[..n][0] == entries[0] && entries[..n][1..] == entries[1..][..n - 1];
  }

  lemma AssignNonEmpty(ps: seq<Prop>, k: string, v: Value)
    ensures Assign(ps, k, v) != []
  {
    assert k in KeySet(Assign(ps, k, v));
  }

  /** Copying is empty exactly when nothing but `_id` was enumerated. */
  lemma {:induction false} CopyFieldsEmpty(acc: seq<Prop>, entries: seq<Prop>)
    ensures CopyFields(acc, entries) == [] <==> acc == [] && NonIdEntries(entries) == []
    decreases |entries|
  {
    if entries != [] {
      if entries[0].key == "_id" {
        CopyFieldsEmpty(acc, entries[1..]);
      } else {
        var next := Assign(acc, entries[0].key, entries[0].val);
        AssignNonEmpty(acc, entries[0].key, entries[0].val);
        CopyFieldsEmpty(next, entries[1..]);
      }
    }
  }

  /** `generateReturn` (index.js:177-196), with its first-field flag `i`. */
  method GenerateReturn(document: Value, typ: Value) returns (retDoc: Value)
    ensures retDoc == Envelope(document, typ)
  {
    var ret: seq<Prop> := [];
    if !Nullish(document) {
      if Truthy(Get(document, "_id")) {
        HeadWrites(document, typ);
        ret := Assign(ret, "type", typ);
        ret := Assign(ret, "guid", Str(ToText(Get(document, "_id"))));
      }
      var head := ret;
      assert KeySet([]) == {};
      assert head == Head(document, typ) && "fields" !in KeySet(head);
      var entries := Entries(document);
      var i := 0;
      for k := 0 to |entries|
        invariant i == 0 || i == 1
        invariant i == 0 <==> CopyFields([], entries[..k]) == []
        invariant ret == if i == 0 then head else head + [Prop("fields", Obj(CopyFields([], entries[..k])))]
      {
        CopyFieldsStep([], entries, k);
        if entries[k].key != "_id" {
          if i == 0 {
            ret := Assign(ret, "fields", Obj([]));
            i := 1;
          }
          ghost var c := CopyFields([], entries[..k]);
          FieldsWrite(head, c, entries[k].key, entries[k].val);
          assert ret == head + [Prop("fields", Obj(c))];
          ret := Assign(ret, "fields", Obj(Assign(Lookup(ret, "fields").props, entries[k].key, entries[k].val)));
          AssignNonEmpty(c, entries[k].key, entries[k].val);
        }
      }
      assert entries[..|entries|] == entries;
    }
    retDoc := Obj(ret);
  }

  /* ---------------- What an envelope holds ---------------- */

  /** Dropping `_id` keeps every other name, in order, and each one's value. */
  lemma {:induction false} NonIdEntriesKeep(entries: seq<Prop>)
    requires DistinctKeys(entries)
    ensures DistinctKeys(NonIdEntries(entries))
    ensures KeySet(NonIdEntries(entries)) == KeySet(entries) - {"_id"}
    ensures forall k :: k != "_id" ==> Lookup(NonIdEntries(entries), k) == Lookup(entries, k)
    decreases |entries|
  {
    if entries == [] {
      assert KeySet([]) == {};
    } else {
      var e0, rest := entries[0], entries[1..];
      assert entries == [e0] + rest;
      DistinctCons(e0, rest);
      KeySetCons(e0, rest);
      NonIdEntriesKeep(rest);
      forall k ensures Lookup(entries, k) == if e0.key == k then e0.val else Lookup(rest, k) {
        LookupCons(e0, rest, k);
      }
      if e0.key != "_id" {
        var n := NonIdEntries(rest);
        assert NonIdEntries(entries) == [e0] + n;
        DistinctCons(e0, n);
        KeySetCons(e0, n);
        forall k ensures Lookup([e0] + n, k) == if e0.key == k then e0.val else Lookup(n, k) {
          LookupCons(e0, n, k);
        }
      }
    }
  }

  lemma Associative(a: seq<Prop>, b: seq<Prop>, c: seq<Prop>)
    ensures a + b + c == a + (b + c)
  {
  }

  /** One property copied: `_id` is skipped, a fresh name is appended. */
  lemma CopyFieldsHead(acc: seq<Prop>, entries: seq<Prop>)
    requires entries != [] && entries[0].key !in KeySet(acc)
    ensures var p := if entries[0].key == "_id" then [] else [entries[0]];
      && CopyFields(acc, entries) == CopyFields(acc + p, entries[1..])
      && NonIdEntries(entries) == p + NonIdEntries(entries[1..])
      && KeySet(acc + p) <= KeySet(acc) + {entries[0].key}
  {
    if entries[0].key == "_id" {
      assert acc + [] == acc;
    }
  }

  /** With distinct names, copying field by field appends exactly the non-`_id` properties. */
  lemma {:induction false} CopyFieldsAppends(acc: seq<Prop>, entries: seq<Prop>)
    requires DistinctKeys(entries)
    requires forall i :: 0 <= i < |entries| ==> entries[i].key !in KeySet(acc)
    ensures CopyFields(acc, entries) == acc + NonIdEntries(entries)
    decreases |entries|
  {
    if entries != [] {
      var rest := entries[1..];
      var p := if entries[0].key == "_id" then [] else [entries[0]];
      assert CopyFields(acc, entries) == CopyFields(acc + p, rest) && NonIdEntries(entries) == p + NonIdEntries(rest) by {
        CopyFieldsHead(acc, entries);
      }
      assert DistinctKeys(rest) && forall i :: 0 <= i < |rest| ==> rest[i].key !in KeySet(acc + p) by {
        HeadTail(entries);
        CopyFieldsHead(acc, entries);
        forall i | 0 <= i < |rest| ensures rest[i].key !in KeySet(acc + p) {
          assert rest[i] == entries[i + 1];
          assert rest[i].key in KeySet(rest);
        }
      }
      CopyFieldsAppends(acc + p, rest);
      Associative(acc, p, NonIdEntries(rest));
    }
  }

  /** `generateReturn` of null or undefined is `{}`. */
  lemma EnvelopeOfNothing(document: Value, typ: Value)
    requires Nullish(document)
    ensures Envelope(document, typ) == Obj([])
  {
  }

  /** For a document with distinct names, the envelope is `type`, `guid`, then `fields`. */
  lemma EnvelopeLayout(document: Value, typ: Value)
    requires WellFormed(document) && !Nullish(document)
    ensures var es := Entries(document);
      Envelope(document, typ).props == Head(document, typ) +
        (if NonIdEntries(es) == [] then [] else [Prop("fields", Obj(NonIdEntries(es)))])
  {
    var es := Entries(document);
    EntriesDistinct(document);
    assert KeySet([]) == {};
    CopyFieldsAppends([], es);
    assert CopyFields([], es) == NonIdEntries(es);
  }

  /**
   * The envelope names `type` and `guid` exactly when `_id` is truthy, and
   * `guid` is then the rendered `_id`.
   */
  lemma EnvelopeIdentity(document: Value, typ: Value)
    requires WellFormed(document) && !Nullish(document)
    ensures var r := Envelope(document, typ).props; var id := Get(document, "_id");
      && (Has(r, "guid") <==> Truthy(id))
      && (Has(r, "type") <==> Truthy(id))
      && (Truthy(id) ==> Lookup(r, "type") == typ && Lookup(r, "guid") == Str(ToText(id)))
  {
    EnvelopeLayout(document, typ);
    var r := Envelope(document, typ).props;
    var h := Head(document, typ);
    if Truthy(Get(document, "_id")) {
      assert r[0].key == "type" && r[1].key == "guid";
      IndexOfUnique(r, "type", 0);
      IndexOfUnique(r, "guid", 1);
    } else {
      assert forall i :: 0 <= i < |r| ==> r[i].key == "fields";
    }
  }

  /**
   * The envelope names `fields` exactly when the document has a property
   * other than `_id`, and `fields` then holds every such property, in
   * document order.
   */
  lemma EnvelopeFields(document: Value, typ: Value)
    requires WellFormed(document) && !Nullish(document)
    ensures var r := Envelope(document, typ).props; var es := Entries(document);
      && (Has(r, "fields") <==> exists i :: 0 <= i < |es| && es[i].key != "_id")
      && (Has(r, "fields") ==> Lookup(r, "fields") == Obj(NonIdEntries(es)))
  {
    EnvelopeLayout(document, typ);
    EntriesDistinct(document);
    FieldsAfterHead(Head(document, typ), Entries(document));
  }

  lemma FieldsAfterHead(h: seq<Prop>, es: seq<Prop>)
    requires forall i :: 0 <= i < |h| ==> h[i].key != "fields"
    requires DistinctKeys(es)
    ensures var r := h + (if NonIdEntries(es) == [] then [] else [Prop("fields", Obj(NonIdEntries(es)))]);
      && (Has(r, "fields") <==> exists i :: 0 <= i < |es| && es[i].key != "_id")
      && (Has(r, "fields") ==> Lookup(r, "fields") == Obj(NonIdEntries(es)))
  {
    var n := NonIdEntries(es);
    var r := h + (if n == [] then [] else [Prop("fields", Obj(n))]);
    if n == [] {
      assert r == h;
      assert forall i :: 0 <= i < |es| ==> es[i].key == "_id" by {
        NonIdEntriesKeep(es);
        forall i | 0 <= i < |es| ensures es[i].key == "_id" {
          assert es[i].key in KeySet(es);
        }
      }
    } else {
      assert IndexOf(r, "fields") == |h| by {
        IndexOfUnique(r, "fields", |h|);
      }
      assert n[0].key in KeySet(es) - {"_id"} by {
        NonIdEntriesKeep(es);
        assert n[0].key in KeySet(n);
      }
    }
  }

  /**
   * An envelope's `guid` names the stored document again: rendering an
   * ObjectId and decoding the rendered text gives the same ObjectId back, so
   * the `guid` of a listed document reads, updates or deletes that document.
   */
  lemma GuidRoundTrip(document: Value, typ: Value)
    requires WellFormed(document) && document.Obj?
    requires Get(document, "_id").ObjectId? && Canonical(Get(document, "_id").hex)
    ensures Decode(Lookup(Envelope(document, typ).props, "guid")) == Get(document, "_id")
  {
    EnvelopeIdentity(document, typ);
    DecodeRendered(Get(document, "_id").hex);
  }
}
