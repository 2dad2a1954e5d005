/** The `orderId` that a Paystack metadata object carries (webhook.service.ts, extractOrderId). */
module Metadata {
  import opened Types

  // None in a field or a list stands for absent or of another JSON type.
  datatype CustomField = NotAField | CustomField(variableName: Option<string>, value: Option<string>)

  datatype PaymentMetadata =
    | NotAnObject
    | MetadataObject(orderId: Option<string>, customFields: Option<seq<CustomField>>)

  // The characters String.prototype.trim removes (section 22.1.3.32 of ECMA-262).
  predicate IsSpace(c: char) {
    c in {'\t', '\n', '\U{000B}', '\U{000C}', '\r', ' ', '\U{00A0}', '\U{1680}', '\U{2028}', '\U{2029}',
          '\U{202F}', '\U{205F}', '\U{3000}', '\U{FEFF}'}
    || '\U{2000}' <= c <= '\U{200A}'
  }

  function Trim(s: string): (t: string)
    ensures t == "" || (!IsSpace(t[0]) && !IsSpace(t[|t| - 1]))
    decreases |s|
  {
    if s == "" then ""
    else if IsSpace(s[0]) then Trim(s[1..])
    else if IsSpace(s[|s| - 1]) then Trim(s[..|s| - 1])
    else s
  }

  // `t` is `s` from i to j, and everything around it is white space.
  predicate CutAt(s: string, t: string, i: nat, j: nat) {
    && i <= j <= |s| && t == s[i..j]
    && (forall k :: 0 <= k < i ==> IsSpace(s[k]))
    && (forall k :: j <= k < |s| ==> IsSpace(s[k]))
  }

  lemma CutAfterSpace(s: string, t: string, i: nat, j: nat)
    requires s != "" && IsSpace(s[0]) && CutAt(s[1..], t, i, j)
    ensures CutAt(s, t, i + 1, j + 1)
  {
    assert forall k :: 0 < k < |s| ==> s[k] == s[1..][k - 1];
  }

  lemma CutBeforeSpace(s: string, t: string, i: nat, j: nat)
    requires s != "" && IsSpace(s[|s| - 1]) && CutAt(s[..|s| - 1], t, i, j)
    ensures CutAt(s, t, i, j)
  {
    assert forall k :: 0 <= k < |s| - 1 ==> s[k] == s[..|s| - 1][k];
  }

  lemma {:induction false} TrimPart(s: string) returns (i: nat, j: nat)
    ensures CutAt(s, Trim(s), i, j)
    decreases |s|
  {
    if s != "" && IsSpace(s[0]) {
      i, j := TrimPart(s[1..]);
      CutAfterSpace(s, Trim(s), i, j);
      i, j := i + 1, j + 1;
    } else if s != "" && IsSpace(s[|s| - 1]) {
      i, j := TrimPart(s[..|s| - 1]);
      CutBeforeSpace(s, Trim(s), i, j);
    } else {
      i, j := 0, |s|;
    }
  }

  /** Only white space is trimmed: the result is a contiguous part of the text with nothing
      else around it. */
  lemma TrimCuts(s: string)
    ensures exists i, j :: CutAt(s, Trim(s), i, j)
  {
    var i, j := TrimPart(s);
    assert CutAt(s, Trim(s), i, j);
  }

  predicate NamesOrder(field: CustomField) {
    && field.CustomField?
    && field.variableName == Some("order_id")
    && field.value.Some?
    && Trim(field.value.value) != ""
  }

  function FirstNamed(fields: seq<CustomField>): (r: Option<string>)
    ensures r.None? <==> forall i :: 0 <= i < |fields| ==> !NamesOrder(fields[i])
    ensures r.Some? ==> exists k ::
      && 0 <= k < |fields| && NamesOrder(fields[k]) && r.value == Trim(fields[k].value.value)
      && forall i :: 0 <= i < k ==> !NamesOrder(fields[i])
  {
    if fields == [] then None
    else if NamesOrder(fields[0]) then Some(Trim(fields[0].value.value))
    else
      var rest := FirstNamed(fields[1..]);
      assert rest.Some? ==> exists k ::
          && 0 < k < |fields| && NamesOrder(fields[k]) && rest.value == Trim(fields[k].value.value)
          && forall i :: 0 <= i < k ==> !NamesOrder(fields[i]) by {
        if rest.Some? {
          var k :| 0 <= k < |fields| - 1 && NamesOrder(fields[1..][k])
              && rest.value == Trim(fields[1..][k].value.value)
              && forall i :: 0 <= i < k ==> !NamesOrder(fields[1..][i]);
          assert forall i :: 0 < i < k + 1 ==> fields[i] == fields[1..][i - 1];
          assert NamesOrder(fields[k + 1]);
        }
      }
      assert rest.None? ==> forall i :: 1 <= i < |fields| ==> fields[i] == fields[1..][i - 1];
      rest
  }

  function ExtractedOrderId(metadata: PaymentMetadata): Option<OrderId> {
    match metadata
    case NotAnObject => None
    case MetadataObject(orderId, customFields) =>
      if orderId.Some? && Trim(orderId.value) != "" then Some(Trim(orderId.value))
      else if customFields.None? then None
      else FirstNamed(customFields.value)
  }

  // Some character is not white space.
  predicate HasText(s: string) {
    exists i :: 0 <= i < |s| && !IsSpace(s[i])
  }

  /** The characters that count as white space (section 22.1.3.32 of ECMA-262), by number. */
  lemma SpacesAre(c: char)
    ensures IsSpace(c) <==>
      var n := c as int;
      9 <= n <= 13 || n in {32, 160, 5760, 8232, 8233, 8239, 8287, 12288, 65279} || 8192 <= n <= 8202
  {
  }

  lemma TrimmedAwayIff(s: string)
    ensures Trim(s) != "" <==> HasText(s)
  {
    var i, j := TrimPart(s);
    if HasText(s) {
      var k :| 0 <= k < |s| && !IsSpace(s[k]);
      assert i <= k < j;
    }
    if Trim(s) != "" {
      assert !IsSpace(s[i]);
    }
  }

  // The first field of the list that names an order is field k.
  predicate FirstNameAt(fields: seq<CustomField>, k: int) {
    && 0 <= k < |fields| && Names(fields[k])
    && forall i :: 0 <= i < k ==> !Names(fields[i])
  }

  predicate Names(field: CustomField) {
    field.CustomField? && field.variableName == Some("order_id") && field.value.Some? && HasText(field.value.value)
  }

  lemma NamesOrderIff(field: CustomField)
    ensures NamesOrder(field) <==> Names(field)
  {
    if field.CustomField? && field.value.Some? {
      TrimmedAwayIff(field.value.value);
    }
  }

  /** Which order a metadata object names: the top-level field if it has any text, else the
      first custom field called order_id that has any, else none. */
  lemma ExtractedIs(metadata: PaymentMetadata)
    ensures metadata.NotAnObject? ==> ExtractedOrderId(metadata) == None
    ensures metadata.MetadataObject? ==>
      if metadata.orderId.Some? && HasText(metadata.orderId.value) then
        ExtractedOrderId(metadata) == Some(Trim(metadata.orderId.value))
      else if metadata.customFields.Some? && exists k :: FirstNameAt(metadata.customFields.value, k) then
        exists k :: FirstNameAt(metadata.customFields.value, k)
                    && ExtractedOrderId(metadata) == Some(Trim(metadata.customFields.value[k].value.value))
      else ExtractedOrderId(metadata) == None
  {
    if metadata.MetadataObject? {
      if metadata.orderId.Some? {
        TrimmedAwayIff(metadata.orderId.value);
      }
      if metadata.customFields.Some? {
        FirstNamedIs(metadata.customFields.value);
      }
    }
  }

  lemma FirstNamedIs(fields: seq<CustomField>)
    ensures (exists k :: FirstNameAt(fields, k)) <==> FirstNamed(fields).Some?
    ensures FirstNamed(fields).Some? ==>
      exists k :: FirstNameAt(fields, k) && FirstNamed(fields) == Some(Trim(fields[k].value.value))
  {
    forall i | 0 <= i < |fields|
      ensures NamesOrder(fields[i]) <==> Names(fields[i])
    {
      NamesOrderIff(fields[i]);
    }
    if FirstNamed(fields).Some? {
      var k :| 0 <= k < |fields| && NamesOrder(fields[k]) && FirstNamed(fields).value == Trim(fields[k].value.value)
               && forall i :: 0 <= i < k ==> !NamesOrder(fields[i]);
      assert FirstNameAt(fields, k);
    }
  }

  method ExtractOrderId(metadata: PaymentMetadata) returns (r: Option<OrderId>)
    ensures r == ExtractedOrderId(metadata)
  {
    if metadata.NotAnObject? {
      return None;
    }
    if metadata.orderId.Some? && Trim(metadata.orderId.value) != "" {
      return Some(Trim(metadata.orderId.value));
    }
    if metadata.customFields.None? {
      return None;
    }
    var fields := metadata.customFields.value;
    for i := 0 to |fields|
      invariant FirstNamed(fields) == FirstNamed(fields[i..])
    {
      if NamesOrder(fields[i]) {
        return Some(Trim(fields[i].value.value));
      }
    }
    return None;
  }

  // What initializeTransaction sends along with a payment.
  function MetadataFor(id: OrderId): PaymentMetadata {
    MetadataObject(Some(id), Some([CustomField(Some("order_id"), Some(id))]))
  }

  /** The metadata a payment is opened with leads back to its order, even when Paystack
      returns only the custom fields. */
  lemma MetadataRoundTrip(id: OrderId)
    requires id != "" && Trim(id) == id
    ensures ExtractedOrderId(MetadataFor(id)) == Some(id)
    ensures ExtractedOrderId(MetadataFor(id).(orderId := None)) == Some(id)
  {
    assert NamesOrder(MetadataFor(id).customFields.value[0]);
  }
}
