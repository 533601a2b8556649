/**
 * The text tables the bot ships with: a shared welcome text and one table of
 * templates per supported language, each read through the resource-context
 * lookup.
 */
module ContextTexts {
  import opened Base
  import opened ResourceContext

  const WelcomeText: string := "Hi, welcome\n" + "سلام خوش آمدی\n" + "مرحبا أهلا وسهلا\n" + "こんにちはようこそ\n"

  /** The placeholder through which `already_registered` greets the sender. */
  const FirstNameField: string := "msg.from_user.first_name"

  /** The literal text around the placeholder of the two `already_registered` templates. */
  const EnGreetingHead: string := "Dear "
  const EnGreetingTail: string := ", you are already registered."
  const FaGreetingTail: string := " عزیز, شما درحال حاضر ثبت نام شده اید."

  /** The two `already_registered` templates. */
  const EnGreeting: string := EnGreetingHead + "{" + FirstNameField + "}" + EnGreetingTail
  const FaGreeting: string := "{" + FirstNameField + "}" + FaGreetingTail

  /** The module itself: the shared welcome text and the two language classes. */
  function ModuleTable(): map<string, Attr>
  {
    map["welcome" := Str(WelcomeText), "en" := Namespace, "fa" := Namespace]
  }

  /** The texts of the English class. */
  const EnCancel: string := "Cancel!"
  const EnAskName: string := "Whats your name?"
  const EnAskAge: string := "How old are you?"
  const EnAskPhoneNumber: string := "Send me your phone number with code (example: +98xxxxxxxxxx):"
  const EnRegisterCanceled: string := "OK! if you want to register, send /start again"
  const EnUserRegistered: string := "You have registered successfully."
  const EnErrorOccurred: string := "An error occurred! please try again."
  const EnInvalidInput: string := "Invalid input!"

  /** The texts of the Persian class. */
  const FaCancel: string := "لغو!"
  const FaAskName: string := "اسم شما چیست?"
  const FaAskAge: string := "چند سال دارید?"
  const FaAskPhoneNumber: string := "شماره موبایل خود را با کد وارد کنید (مثال: +98xxxxxxxxxx):"
  const FaRegisterCanceled: string := "اوکی! اگر هنوز مایل به ثبت نام هستی /start را دوباره بفرست"
  const FaUserRegistered: string := "شما با موفقیت ثبت نام شدید.."
  const FaErrorOccurred: string := "یک خطا رخ داده! مجدد تلاش کنید.."
  const FaInvalidInput: string := "ورودی نا معتبر!"

  /** The English class: its texts by attribute name. */
  function EnTable(): map<string, Attr>
  {
    map[
      "cancel" := Str(EnCancel),
      "ask_name" := Str(EnAskName),
      "ask_age" := Str(EnAskAge),
      "ask_phone_number" := Str(EnAskPhoneNumber),
      "already_registered" := Str(EnGreeting),
      "register_canceled" := Str(EnRegisterCanceled),
      "user_registered" := Str(EnUserRegistered),
      "error_occurred" := Str(EnErrorOccurred),
      "invalid_input" := Str(EnInvalidInput)
    ]
  }

  /** The Persian class: its texts by attribute name. */
  function FaTable(): map<string, Attr>
  {
    map[
      "cancel" := Str(FaCancel),
      "ask_name" := Str(FaAskName),
      "ask_age" := Str(FaAskAge),
      "ask_phone_number" := Str(FaAskPhoneNumber),
      "already_registered" := Str(FaGreeting),
      "register_canceled" := Str(FaRegisterCanceled),
      "user_registered" := Str(FaUserRegistered),
      "error_occurred" := Str(FaErrorOccurred),
      "invalid_input" := Str(FaInvalidInput)
    ]
  }

  /** The table of a language: `fa` has its own, every other code reads the English one. */
  function LanguageTable(language: string): (t: map<string, Attr>)
    ensures language != "fa" ==> t == EnTable()
  {
    if language == "fa" then FaTable() else EnTable()
  }

  /** The localized text of `key`, rendered with the caller's values. */
  function Localized(language: string, key: string, locals: map<string, string>): (r: Result<string, FormatError>)
    ensures key !in LanguageTable(language) ==> r == Ok(NotDefined(key))
  {
    GetAttr(LanguageTable(language), key, locals)
  }

  /** The cancel button reads "Cancel!" in English and "لغو!" in Persian. */
  lemma CancelTexts(locals: map<string, string>)
    ensures Localized("en", "cancel", locals) == Ok("Cancel!")
    ensures Localized("fa", "cancel", locals) == Ok("لغو!")
  {
    assert Localized("en", "cancel", locals) == Ok("Cancel!") by {
      assert LanguageTable("en") == EnTable();
      assert EnTable()["cancel"] == Str("Cancel!");
      assert NoBraces("Cancel!");
    }
    assert Localized("fa", "cancel", locals) == Ok("لغو!") by {
      assert LanguageTable("fa") == FaTable();
      assert FaTable()["cancel"] == Str("لغو!");
      assert NoBraces("لغو!");
    }
  }

  /** The shared welcome text has no placeholder and renders as written. */
  lemma WelcomeRendered(locals: map<string, string>)
    ensures GetAttr(ModuleTable(), "welcome", locals) == Ok(WelcomeText)
  {
    assert NoBraces("Hi, welcome\n") && NoBraces("سلام خوش آمدی\n");
    assert NoBraces("مرحبا أهلا وسهلا\n") && NoBraces("こんにちはようこそ\n");
    NoBracesConcat("Hi, welcome\n", "سلام خوش آمدی\n");
    NoBracesConcat("Hi, welcome\n" + "سلام خوش آمدی\n", "مرحبا أهلا وسهلا\n");
    NoBracesConcat("Hi, welcome\n" + "سلام خوش آمدی\n" + "مرحبا أهلا وسهلا\n", "こんにちはようこそ\n");
  }

  lemma FirstNameIsField()
    ensures FieldName(FirstNameField)
  {
    assert FirstNameField[0] == 'm';
  }

  lemma GreetingPartsPlain()
    ensures NoBraces(EnGreetingHead) && NoBraces(EnGreetingTail) && NoBraces(FaGreetingTail)
  {
    assert NoBraces("Dear ");
    assert NoBraces(", you are already registered.");
    assert NoBraces(" عزیز, شما درحال حاضر ثبت نام شده اید.");
  }

  /** The English `already_registered` template: one placeholder between literal texts. */
  lemma EnGreetingTemplate()
    ensures EnGreeting == OneFieldTemplate(EnGreetingHead, FirstNameField, EnGreetingTail)
  {
    GreetingPartsPlain();
    EscapeNoBraces(EnGreetingHead);
    EscapeNoBraces(EnGreetingTail);
    Regroup(EnGreetingHead, "{", FirstNameField, "}", EnGreetingTail);
  }

  /** The Persian `already_registered` template: the placeholder, then literal text. */
  lemma FaGreetingTemplate()
    ensures FaGreeting == OneFieldTemplate("", FirstNameField, FaGreetingTail)
  {
    assert Escape("") == "";
    GreetingPartsPlain();
    EscapeNoBraces(FaGreetingTail);
    Regroup("", "{", FirstNameField, "}", FaGreetingTail);
  }

  /** Looking a key up in a language table finds its template. */
  lemma GreetingLookup(language: string, locals: map<string, string>)
    ensures Localized(language, "already_registered", locals)
         == FormatMap(if language == "fa" then FaGreeting else EnGreeting, locals)
  {
    if language == "fa" {
      assert FaTable()["already_registered"] == Str(FaGreeting);
    } else {
      assert EnTable()["already_registered"] == Str(EnGreeting);
    }
  }

  lemma EmptyHead(a: string, b: string)
    ensures "" + a + b == a + b
  {
    assert "" + a == a;
  }

  lemma Regroup(a: string, b: string, c: string, d: string, e: string)
    ensures a + b + c + d + e == a + (b + c + d + e)
  {
  }

  /**
   * `already_registered` greets the sender by the first name the caller
   * supplies: in Persian for `fa`, in English for every other language.
   */
  lemma AlreadyRegisteredRendered(language: string, firstName: string)
    ensures Localized(language, "already_registered", map[FirstNameField := firstName])
         == Ok(if language == "fa" then firstName + FaGreetingTail else EnGreetingHead + firstName + EnGreetingTail)
  {
    var locals := map[FirstNameField := firstName];
    assert FirstNameField in locals && locals[FirstNameField] == firstName;
    FirstNameIsField();
    GreetingLookup(language, locals);
    if language == "fa" {
      assert FormatMap(FaGreeting, locals) == Ok(firstName + FaGreetingTail) by {
        FaGreetingTemplate();
        OnePlaceholder("", FirstNameField, FaGreetingTail, locals);
        EmptyHead(firstName, FaGreetingTail);
      }
    } else {
      assert FormatMap(EnGreeting, locals) == Ok(EnGreetingHead + firstName + EnGreetingTail) by {
        EnGreetingTemplate();
        OnePlaceholder(EnGreetingHead, FirstNameField, EnGreetingTail, locals);
      }
    }
  }

  /** Without a value for the placeholder, `already_registered` raises KeyError instead of failing soft. */
  lemma AlreadyRegisteredNeedsFirstName(language: string)
    ensures Localized(language, "already_registered", map[]) == Err(KeyError(FirstNameField))
  {
    FirstNameIsField();
    GreetingLookup(language, map[]);
    if language == "fa" {
      FaGreetingTemplate();
      OnePlaceholder("", FirstNameField, FaGreetingTail, map[]);
    } else {
      EnGreetingTemplate();
      OnePlaceholder(EnGreetingHead, FirstNameField, EnGreetingTail, map[]);
    }
  }
}
