/**
 * What the checkout controller derives from an errors mapping for a form:
 * whether the form is valid, and the error line it shows.
 */
module FormViews {
  import opened Orders

  /** `!!errors[k]`: the key is present with a non-empty message. */
  predicate Flagged(errors: Errors, k: FormField)
  {
    k in errors && errors[k] != ""
  }

  /** `!errors[first] && !errors[second]`. */
  predicate FormValid(errors: Errors, first: FormField, second: FormField)
  {
    !Flagged(errors, first) && !Flagged(errors, second)
  }

  /** `Array.prototype.join(sep)`. */
  function Join(parts: seq<string>, sep: string): string
  {
    if |parts| == 0 then ""
    else if |parts| == 1 then parts[0]
    else parts[0] + sep + Join(parts[1..], sep)
  }

  /**
   * `Object.values({...}).filter(i => !!i)` over `keys`: the non-empty
   * messages, in key order.
   */
  function Present(errors: Errors, keys: seq<FormField>): (r: seq<string>)
    ensures forall i :: 0 <= i < |r| ==> r[i] != ""
    ensures r == [] <==> forall i :: 0 <= i < |keys| ==> !Flagged(errors, keys[i])
  {
    if keys == [] then []
    else (if Flagged(errors, keys[0]) then [errors[keys[0]]] else []) + Present(errors, keys[1..])
  }

  /**
   * The form's error line: the present messages for `first` then `second`,
   * joined by `'; '`. It is empty exactly when the form is valid.
   */
  function ErrorsText(errors: Errors, first: FormField, second: FormField): (r: string)
    ensures r == "" <==> FormValid(errors, first, second)
  {
    var keys := [first, second];
    var parts := Present(errors, keys);
    assert FormValid(errors, first, second) <==> !Flagged(errors, keys[0]) && !Flagged(errors, keys[1]);
    assert parts != [] ==> |Join(parts, "; ")| >= |parts[0]| > 0;
    Join(parts, "; ")
  }

  /**
   * For the delivery mapping of an order (with non-empty messages) the form
   * is valid exactly when payment and address are both set, and the error
   * line lists the address message before the payment message.
   */
  lemma DeliveryFormState(o: Order, m: Messages)
    requires m.address != "" && m.payment != ""
    ensures FormValid(DeliveryErrors(o, m), Address, Payment) <==> IsSet(o, Address) && IsSet(o, Payment)
    ensures ErrorsText(DeliveryErrors(o, m), Address, Payment)
         == Join((if IsSet(o, Address) then [] else [m.address])
                 + (if IsSet(o, Payment) then [] else [m.payment]), "; ")
  {
    var errors := DeliveryErrors(o, m);
    assert Flagged(errors, Address) <==> !IsSet(o, Address);
    assert Flagged(errors, Payment) <==> !IsSet(o, Payment);
    assert [Address, Payment][1..] == [Payment] && [Payment][1..] == [];
    assert Present(errors, [Address, Payment])
        == (if IsSet(o, Address) then [] else [m.address]) + (if IsSet(o, Payment) then [] else [m.payment]);
  }

  /**
   * For the contact mapping of an order (with non-empty messages) the form is
   * valid exactly when email and phone are both set, and the error line lists
   * the email message before the phone message.
   */
  lemma ContactsFormState(o: Order, m: Messages)
    requires m.email != "" && m.phone != ""
    ensures FormValid(ContactErrors(o, m), Email, Phone) <==> IsSet(o, Email) && IsSet(o, Phone)
    ensures ErrorsText(ContactErrors(o, m), Email, Phone)
         == Join((if IsSet(o, Email) then [] else [m.email])
                 + (if IsSet(o, Phone) then [] else [m.phone]), "; ")
  {
    var errors := ContactErrors(o, m);
    assert Flagged(errors, Email) <==> !IsSet(o, Email);
    assert Flagged(errors, Phone) <==> !IsSet(o, Phone);
    assert [Email, Phone][1..] == [Phone] && [Phone][1..] == [];
    assert Present(errors, [Email, Phone])
        == (if IsSet(o, Email) then [] else [m.email]) + (if IsSet(o, Phone) then [] else [m.phone]);
  }
}
