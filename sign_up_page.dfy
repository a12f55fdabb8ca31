/**
 * The sign-up form of client/src/pages/SignUp.js, as values: the field update, the two
 * checks the submit handler makes, in order, and the registration request it sends.
 */
module SignUpPage {
  import opened Js

  /** `formData`: input name to the text typed into it. */
  type Form = map<string, string>

  const Initial: Form := map["name" := "", "email" := "", "password" := "", "confirmPassword" := ""]

  const Mismatch: string := "Passwords do not match"
  const BadEmail: string := "Please enter a valid email address"

  /** `handleChange`: `{...formData, [name]: value}`. */
  function Change(form: Form, name: string, value: string): Form {
    form[name := value]
  }

  /** `formData[key]`: the text, or undefined for a key the form never had. */
  function Value(form: Form, key: string): JsValue {
    if key in form then Str(form[key]) else Undefined
  }

  /** The string `regex.test` is given: undefined reads as "undefined". */
  function TestedText(v: JsValue): string {
    if v.Str? then v.s else "undefined"
  }

  /** `[^\s@]+` */
  predicate Plain(t: string) {
    t != [] && forall i :: 0 <= i < |t| ==> !IsSpace(t[i]) && t[i] != '@'
  }

  /** What `^[^\s@]+@[^\s@]+\.[^\s@]+$` denotes. */
  ghost predicate EmailPattern(s: string) {
    exists local, host, top :: s == local + "@" + host + "." + top && Plain(local) && Plain(host) && Plain(top)
  }

  /**
   * The recogniser: no white space anywhere, a non-empty local part before the first `@`, no
   * other `@`, and after it a `.` that is neither the domain's first nor its last character.
   */
  predicate ValidEmail(s: string) {
    var c := FirstIndex(s, '@');
    && (forall i :: 0 <= i < |s| ==> !IsSpace(s[i]))
    && 0 < c < |s|
    && var domain := s[c + 1..];
    && (forall i :: 0 <= i < |domain| ==> domain[i] != '@')
    && |domain| >= 3 && '.' in domain[1..|domain| - 1]
  }

  datatype Outcome = Refused(message: string) | Register(path: string, body: JsValue)

  /** `handleSubmit`: passwords first, then the email, then the request without the confirmation. */
  function Submit(form: Form): Outcome {
    if !StrictEquals(Value(form, "password"), Value(form, "confirmPassword")) then Refused(Mismatch)
    else if !ValidEmail(TestedText(Value(form, "email"))) then Refused(BadEmail)
    else Register("/users/register", Obj(map[
      "name" := Value(form, "name"),
      "email" := Value(form, "email"),
      "password" := Value(form, "password")]))
  }

  lemma EmailToPattern(s: string)
    requires ValidEmail(s)
    ensures EmailPattern(s)
  {
    var c := FirstIndex(s, '@');
    var domain := s[c + 1..];
    var inner := domain[1..|domain| - 1];
    var j :| 0 <= j < |inner| && inner[j] == '.';
    var local, host, top := s[..c], domain[..j + 1], domain[j + 2..];
    assert domain[j + 1] == '.';
    assert domain == host + "." + top;
    assert s == local + "@" + domain;
    forall i | 0 <= i < |local| ensures !IsSpace(local[i]) && local[i] != '@' {
      assert local[i] == s[i];
    }
    forall i | 0 <= i < |host| ensures !IsSpace(host[i]) && host[i] != '@' {
      assert host[i] == s[c + 1 + i];
    }
    forall i | 0 <= i < |top| ensures !IsSpace(top[i]) && top[i] != '@' {
      assert top[i] == s[c + j + 3 + i];
    }
    assert Plain(local) && Plain(host) && Plain(top);
    assert s == local + "@" + host + "." + top;
  }

  predicate NoSpace(t: string) {
    forall i :: 0 <= i < |t| ==> !IsSpace(t[i])
  }

  predicate NoAt(t: string) {
    forall i :: 0 <= i < |t| ==> t[i] != '@'
  }

  lemma NoSpaceAppend(a: string, b: string)
    requires NoSpace(a) && NoSpace(b)
    ensures NoSpace(a + b)
  {
    forall i | 0 <= i < |a + b| ensures !IsSpace((a + b)[i]) {
      if i >= |a| {
        assert (a + b)[i] == b[i - |a|];
      }
    }
  }

  lemma NoAtAppend(a: string, b: string)
    requires NoAt(a) && NoAt(b)
    ensures NoAt(a + b)
  {
    forall i | 0 <= i < |a + b| ensures (a + b)[i] != '@' {
      if i >= |a| {
        assert (a + b)[i] == b[i - |a|];
      }
    }
  }

  /** The recogniser's view of three plain parts glued by `@` and `.`. */
  lemma PartsAccepted(local: string, host: string, top: string)
    requires Plain(local) && Plain(host) && Plain(top)
    ensures ValidEmail(local + "@" + host + "." + top)
  {
    var domain := host + "." + top;
    var s := local + "@" + domain;
    assert NoSpace(local) && NoSpace(host) && NoSpace(top) && NoSpace("@") && NoSpace(".");
    NoSpaceAppend(local, "@");
    NoSpaceAppend(host, ".");
    NoSpaceAppend(host + ".", top);
    NoSpaceAppend(local + "@", domain);
    assert NoAt(host) && NoAt(top) && NoAt(".");
    NoAtAppend(host, ".");
    NoAtAppend(host + ".", top);
    assert s[|local|] == '@';
    forall i | 0 <= i < |local| ensures s[i] != '@' {
      assert s[i] == local[i];
    }
    FirstIndexIs(s, '@', |local|);
    assert s[|local| + 1..] == domain;
    assert domain[1..|domain| - 1][|host| - 1] == '.';
    assert local + "@" + host + "." + top == s;
  }

  lemma PatternToEmail(s: string)
    requires EmailPattern(s)
    ensures ValidEmail(s)
  {
    var local, host, top :| s == local + "@" + host + "." + top && Plain(local) && Plain(host) && Plain(top);
    PartsAccepted(local, host, top);
  }

  /** The recogniser accepts exactly the strings the pattern matches. */
  lemma EmailIff(s: string)
    ensures ValidEmail(s) <==> EmailPattern(s)
  {
    if ValidEmail(s) {
      EmailToPattern(s);
    }
    if EmailPattern(s) {
      PatternToEmail(s);
    }
  }

  /** Simple cases either way: a dot is needed after the `@`, and only one `@` is allowed. */
  lemma EmailExamples()
    ensures ValidEmail("a@b.c")
    ensures !ValidEmail("a@bc") && !ValidEmail("a@b@c.d") && !ValidEmail("@b.c")
  {
    assert FirstIndex("a@b.c", '@') == 1 by {
      FirstIndexIs("a@b.c", '@', 1);
    }
    assert "a@b.c"[2..] == "b.c" && "b.c"[1..2] == ".";
    assert FirstIndex("a@bc", '@') == 1 by {
      FirstIndexIs("a@bc", '@', 1);
    }
    assert "a@bc"[2..] == "bc";
    assert FirstIndex("a@b@c.d", '@') == 1 by {
      FirstIndexIs("a@b@c.d", '@', 1);
    }
    assert "a@b@c.d"[2..][1] == '@';
    assert FirstIndex("@b.c", '@') == 0;
  }

  /** A field update changes that field and no other, and keeps every field the form had. */
  lemma ChangeOnlyThatField(form: Form, name: string, value: string, other: string)
    requires other != name
    ensures Value(Change(form, name, value), name) == Str(value)
    ensures Value(Change(form, name, value), other) == Value(form, other)
    ensures Change(form, name, value).Keys == form.Keys + {name}
  {
  }

  /** Mismatched passwords are refused whatever the email, before it is looked at. */
  lemma MismatchFirst(form: Form)
    requires "password" in form && "confirmPassword" in form
    requires form["password"] != form["confirmPassword"]
    ensures Submit(form) == Refused(Mismatch)
  {
  }

  /**
   * A registration is sent exactly when the passwords agree and the email is accepted; its
   * body is the name, email and password, never the confirmation.
   */
  lemma RegisterExactly(form: Form)
    requires form.Keys == Initial.Keys
    ensures Submit(form).Register? <==> form["password"] == form["confirmPassword"] && ValidEmail(form["email"])
    ensures Submit(form).Refused? ==> Submit(form).message in {Mismatch, BadEmail}
    ensures Submit(form).Register? ==>
      && Submit(form).path == "/users/register"
      && Submit(form).body == Obj(map["name" := Str(form["name"]), "email" := Str(form["email"]),
                                      "password" := Str(form["password"])])
      && "confirmPassword" !in Submit(form).body.fields
  {
  }

  /** Typing into the four inputs keeps the form's four fields. */
  lemma ChangeKeepsFields(form: Form, name: string, value: string)
    requires form.Keys == Initial.Keys && name in Initial
    ensures Change(form, name, value).Keys == Initial.Keys
  {
  }
}
