/** The administrator login page: the CPF mask applied while typing, the checks
    made on submission and the comparison with the fixed credentials. */
module Login {
  import opened Wrappers
  import opened Text

  /** `formatCPF`: the digits of the input; once there are eleven or more, the
      first eleven are written as `ddd.ddd.ddd-dd`. The pattern has no anchors, so
      any digits past the eleventh stay after the mask. */
  function FormatCPF(value: string): string {
    var n := Digits(value);
    if |n| >= 11 then n[..3] + "." + n[3..6] + "." + n[6..9] + "-" + n[9..11] + n[11..]
    else n
  }

  /** `validateCPF`: exactly eleven digits, whatever else the field holds. */
  predicate ValidateCPF(cpf: string) {
    |Digits(cpf)| == 11
  }

  /** Formatting keeps the digits: only the separators are added. */
  lemma DigitsOfFormatCPF(value: string)
    ensures Digits(FormatCPF(value)) == Digits(value)
  {
    var n := Digits(value);
    DigitsOfAllDigits(n);
    if |n| >= 11 {
      var a, b, c, d, e := n[..3], n[3..6], n[6..9], n[9..11], n[11..];
      assert a + b + c + d + e == n;
      DigitsOfMask(a, b, c, d, e);
    }
  }

  /** The digits of the mask are the digits put in it. */
  lemma DigitsOfMask(a: string, b: string, c: string, d: string, e: string)
    requires AllDigits(a) && AllDigits(b) && AllDigits(c) && AllDigits(d) && AllDigits(e)
    ensures Digits(a + "." + b + "." + c + "-" + d + e) == a + b + c + d + e
  {
    DigitsOfAllDigits(a);
    DigitsOfAllDigits(b);
    DigitsOfAllDigits(c);
    DigitsOfAllDigits(d);
    DigitsOfAllDigits(e);
    var p2 := a + "." + b;
    DigitsAroundSeparator(a, '.', b);
    var p4 := p2 + "." + c;
    DigitsAroundSeparator(p2, '.', c);
    var p6 := p4 + "-" + d;
    DigitsAroundSeparator(p4, '-', d);
    DigitsOfConcat(p6, e);
  }

  /** A separator that is not a digit drops out of the digits. */
  lemma DigitsAroundSeparator(x: string, sep: char, y: string)
    requires !IsDigit(sep)
    ensures Digits(x + [sep] + y) == Digits(x) + Digits(y)
  {
    DigitsOfConcat(x, [sep]);
    DigitsOfConcat(x + [sep], y);
    assert Digits([sep]) == [];
  }

  /** Formatting an already formatted value changes nothing. */
  lemma FormatCPFIdempotent(value: string)
    ensures FormatCPF(FormatCPF(value)) == FormatCPF(value)
  {
    DigitsOfFormatCPF(value);
  }

  /** Fewer than eleven digits are shown bare; eleven fill the 14-character mask,
      with digits everywhere but the two dots and the dash. */
  lemma FormatCPFShape(value: string)
    ensures |Digits(value)| < 11 ==> FormatCPF(value) == Digits(value)
    ensures |Digits(value)| == 11 ==>
      var r := FormatCPF(value);
      && |r| == 14 && r[3] == '.' && r[7] == '.' && r[11] == '-'
      && (forall i :: 0 <= i < 14 && i != 3 && i != 7 && i != 11 ==> IsDigit(r[i]))
    ensures |Digits(value)| >= 11 ==> |FormatCPF(value)| == |Digits(value)| + 3
  {
  }

  /** The input keeps the formatted value only when it fits in 14 characters, which
      is exactly when the value holds at most eleven digits. */
  lemma FormatCPFFitsIff(value: string)
    ensures |FormatCPF(value)| <= 14 <==> |Digits(value)| <= 11
  {
  }

  /** What the CPF field can hold: at most eleven digits, already in the form the
      mask gives them. */
  ghost predicate CpfFieldOk(cpf: string) {
    |Digits(cpf)| <= 11 && FormatCPF(cpf) == cpf
  }

  /** A field in that form passes validation exactly when it shows the full mask. */
  lemma ValidCpfIsFullMask(cpf: string)
    requires CpfFieldOk(cpf)
    ensures ValidateCPF(cpf) <==> |cpf| == 14
  {
    FormatCPFShape(cpf);
  }

  datatype LoginField = Cpf | Senha | PalavraChave

  /** The body the page would send: the bare digits, the password as typed and the
      keyword lower-cased and trimmed. */
  datatype RequestBody = RequestBody(cpf: string, senha: string, palavraChave: string)

  function MakeRequestBody(cpf: string, senha: string, palavraChave: string): (r: RequestBody)
    ensures AllDigits(r.cpf) && r.senha == senha
  {
    RequestBody(Digits(cpf), senha, Trim(Lower(palavraChave)))
  }

  /** The fixed credentials the page accepts. */
  const ValidCredentials := RequestBody("12345678901", "admin123", "sistema")

  const CpfMessage := "CPF deve conter 11 dígitos válidos"
  const SenhaMessage := "Senha deve ter pelo menos 6 caracteres"
  const PalavraChaveMessage := "Palavra-chave deve ter pelo menos 3 caracteres"
  const CredentialsMessage := "Credenciais inválidas"

  /** The error `handleLoginSubmit` leaves on the page, or `None` on success: the
      three checks in order, then the comparison of the request body. */
  function SubmitError(cpf: string, senha: string, palavraChave: string): Option<string> {
    if !ValidateCPF(cpf) then Some(CpfMessage)
    else if |senha| < 6 then Some(SenhaMessage)
    else if |palavraChave| < 3 then Some(PalavraChaveMessage)
    else if MakeRequestBody(cpf, senha, palavraChave) == ValidCredentials then None
    else Some(CredentialsMessage)
  }

  lemma TrimLength(s: string)
    ensures |Trim(s)| <= |s|
  {
  }

  /** A login succeeds exactly when the digits are those of the fixed CPF, the password
      matches and the keyword is "sistema" once lower-cased and trimmed; the separate
      length checks never reject such credentials. */
  lemma SubmitSucceedsIff(cpf: string, senha: string, palavraChave: string)
    ensures SubmitError(cpf, senha, palavraChave) == None <==>
      Digits(cpf) == "12345678901" && senha == "admin123" && Trim(Lower(palavraChave)) == "sistema"
  {
    TrimLength(Lower(palavraChave));
  }

  /** Each message names the first check that fails: the CPF before the password,
      the password before the keyword, and the credentials only once all three pass. */
  lemma SubmitErrorOrder(cpf: string, senha: string, palavraChave: string)
    ensures SubmitError(cpf, senha, palavraChave) == Some(CpfMessage) <==> !ValidateCPF(cpf)
    ensures SubmitError(cpf, senha, palavraChave) == Some(SenhaMessage) <==> ValidateCPF(cpf) && |senha| < 6
    ensures SubmitError(cpf, senha, palavraChave) == Some(PalavraChaveMessage) <==>
      ValidateCPF(cpf) && |senha| >= 6 && |palavraChave| < 3
    ensures SubmitError(cpf, senha, palavraChave) == Some(CredentialsMessage) <==>
      && ValidateCPF(cpf) && |senha| >= 6 && |palavraChave| >= 3
      && MakeRequestBody(cpf, senha, palavraChave) != ValidCredentials
  {
  }

  /** The keyword's length is checked before it is trimmed: three spaces pass that
      check and are then refused as wrong credentials. */
  lemma BlankKeywordRefused(cpf: string)
    requires Digits(cpf) == "12345678901"
    ensures SubmitError(cpf, "admin123", "   ") == Some(CredentialsMessage)
  {
    var k := Lower("   ");
    assert k == "   ";
    BlankIff(k);
    assert MakeRequestBody(cpf, "admin123", "   ").palavraChave == "";
  }

  lemma PaddedKeywordTrimStart()
    ensures TrimStart(" sistema ") == "sistema "
  {
    var k := " sistema ";
    assert IsSpace(k[0]) && k[1..] == "sistema ";
    assert !IsSpace(k[1..][0]);
    assert TrimStart(k[1..]) == k[1..];
  }

  lemma PaddedKeywordTrimEnd()
    ensures TrimEnd("sistema ") == "sistema"
  {
    var k := "sistema ";
    assert IsSpace(k[|k| - 1]) && k[..|k| - 1] == "sistema";
    assert TrimEnd(k[..|k| - 1]) == k[..|k| - 1];
  }

  lemma PaddedKeywordNormalised()
    ensures Trim(Lower(" SISTEMA ")) == "sistema"
  {
    assert Lower(" SISTEMA ") == " sistema ";
    PaddedKeywordTrimStart();
    PaddedKeywordTrimEnd();
  }

  /** A keyword in upper case with surrounding spaces is accepted. */
  lemma PaddedKeywordAccepted(cpf: string)
    requires Digits(cpf) == "12345678901"
    ensures SubmitError(cpf, "admin123", " SISTEMA ") == None
  {
    PaddedKeywordNormalised();
    SubmitSucceedsIff(cpf, "admin123", " SISTEMA ");
  }

  /** The page's state: the three inputs, the error shown, and the two flags. */
  class LoginPage {
    var cpf: string
    var senha: string
    var palavraChave: string
    var loginError: Option<string>
    var isLoginLoading: bool
    var loginSuccess: bool

    ghost predicate Valid()
      reads this`cpf
    {
      CpfFieldOk(cpf)
    }

    constructor ()
      ensures cpf == "" && senha == "" && palavraChave == ""
      ensures loginError == None && !isLoginLoading && !loginSuccess
      ensures Valid()
    {
      cpf, senha, palavraChave := "", "", "";
      loginError, isLoginLoading, loginSuccess := None, false, false;
    }

    /** `handleLoginChange`: a CPF edit is masked and kept only if the mask fits in
        14 characters; the other fields take the value as typed; any error is cleared. */
    method HandleLoginChange(name: LoginField, value: string)
      requires Valid()
      modifies this`cpf, this`senha, this`palavraChave, this`loginError
      ensures Valid()
      ensures name == Cpf ==>
        cpf == (if |FormatCPF(value)| <= 14 then FormatCPF(value) else old(cpf))
      ensures name != Cpf ==> cpf == old(cpf)
      ensures senha == (if name == Senha then value else old(senha))
      ensures palavraChave == (if name == PalavraChave then value else old(palavraChave))
      ensures loginError == None
    {
      match name {
        case Cpf =>
          var formatted := FormatCPF(value);
          if |formatted| <= 14 {
            FormatCPFFitsIff(value);
            DigitsOfFormatCPF(value);
            FormatCPFIdempotent(value);
            cpf := formatted;
          }
        case Senha =>
          senha := value;
        case PalavraChave =>
          palavraChave := value;
      }
      loginError := None;
    }

    /** `handleLoginSubmit`, from the press of the button to its `finally`: the error
        is the one `SubmitError` names, success is recorded, and loading ends. */
    method HandleLoginSubmit()
      requires Valid()
      modifies this`loginError, this`isLoginLoading, this`loginSuccess
      ensures Valid()
      ensures loginError == SubmitError(cpf, senha, palavraChave)
      ensures loginSuccess == (old(loginSuccess) || loginError == None)
      ensures !isLoginLoading
    {
      isLoginLoading := true;
      loginError := None;
      if !ValidateCPF(cpf) {
        loginError := Some(CpfMessage);
        isLoginLoading := false;
        return;
      }
      if |senha| < 6 {
        loginError := Some(SenhaMessage);
        isLoginLoading := false;
        return;
      }
      if |palavraChave| < 3 {
        loginError := Some(PalavraChaveMessage);
        isLoginLoading := false;
        return;
      }
      var requestBody := MakeRequestBody(cpf, senha, palavraChave);
      if requestBody == ValidCredentials {
        loginSuccess := true;
      } else {
        loginError := Some(CredentialsMessage);
      }
      isLoginLoading := false;
    }
  }
}
