/** The registration page: the password checks, in their order, the
    loading flag around the sign-up call, and the message shown for each
    outcome. The sign-up service, the toasts and the navigation are
    recorded as a trace of effects; the service's reply is an input. */
module Register {
  import opened Common

  const MinPasswordLength: nat := 6

  const MismatchMessage: string := "Las contraseñas no coinciden"
  const TooShortMessage: string := "La contraseña debe tener al menos 6 caracteres"
  const SuccessMessage: string := "Registro exitoso. Por favor verifica tu correo electrónico para completar el registro."
  const DuplicateMessage: string := "Este correo electrónico ya está registrado"
  const DefaultErrorMessage: string := "Error al registrarse"
  const LoginPath: string := "/login"

  /** An observable effect of the handler. */
  datatype Effect =
    | ToastError(message: string)
    | ToastSuccess(message: string)
    | SetLoading(on: bool)
    | SignUp(email: string, password: string, nombre: string, apellido: string)
    | Navigate(path: string)

  /** What the sign-up call comes back with: the message of the error it
      returned or threw, if any, and whether it returned a user. */
  datatype SignUpReply = SignUpReply(error: Option<string>, hasUser: bool)

  /** The two checks, in source order: the passwords must match first, then
      be at least six characters long. */
  function Validate(password: string, confirmPassword: string): (problem: Option<string>)
    ensures problem.None? <==> password == confirmPassword && |password| >= MinPasswordLength
    ensures password != confirmPassword ==> problem == Some(MismatchMessage)
    ensures password == confirmPassword && |password| < MinPasswordLength ==> problem == Some(TooShortMessage)
  {
    if password != confirmPassword then Some(MismatchMessage)
    else if |password| < MinPasswordLength then Some(TooShortMessage)
    else None
  }

  /** The mismatch check wins even over a too-short password, and six
      characters is the shortest password accepted. */
  lemma ValidationBoundary(p: string, q: string)
    ensures p != q && |p| < MinPasswordLength ==> Validate(p, q) == Some(MismatchMessage)
    ensures |p| == MinPasswordLength ==> Validate(p, p) == None
    ensures |p| == MinPasswordLength - 1 ==> Validate(p, p) == Some(TooShortMessage)
  {
  }

  /** The catch block's message: the fixed duplicate-account text when the
      error mentions "already registered", else the error's own message,
      else the default. */
  function ErrorMessage(message: string): (shown: string)
    ensures Contains(message, "already registered") ==> shown == DuplicateMessage
    ensures !Contains(message, "already registered") && message != "" ==> shown == message
    ensures !Contains(message, "already registered") && message == "" ==> shown == DefaultErrorMessage
    ensures shown != ""
  {
    if Contains(message, "already registered") then DuplicateMessage
    else if message != "" then message
    else DefaultErrorMessage
  }

  /** The effects of one submission. */
  function RegisterTrace(nombre: string, apellido: string, email: string, password: string,
                         confirmPassword: string, reply: SignUpReply): (trace: seq<Effect>)
    ensures |trace| >= 1
  {
    match Validate(password, confirmPassword)
    case Some(problem) => [ToastError(problem)]
    case None =>
      [SetLoading(true), SignUp(email, password, nombre, apellido)]
      + (if reply.error.Some? then [ToastError(ErrorMessage(reply.error.value))]
         else if reply.hasUser then [ToastSuccess(SuccessMessage), Navigate(LoginPath)]
         else [])
      + [SetLoading(false)]
  }

  predicate SignsUp(trace: seq<Effect>)
  {
    exists i :: 0 <= i < |trace| && trace[i].SignUp?
  }

  predicate TouchesLoading(trace: seq<Effect>)
  {
    exists i :: 0 <= i < |trace| && trace[i].SetLoading?
  }

  /** A failed check shows its message and does nothing else: no sign-up,
      no change to the loading flag. */
  lemma RejectedSubmissionOnlyWarns(nombre: string, apellido: string, email: string, password: string,
                                    confirmPassword: string, reply: SignUpReply)
    requires Validate(password, confirmPassword).Some?
    ensures RegisterTrace(nombre, apellido, email, password, confirmPassword, reply)
            == [ToastError(Validate(password, confirmPassword).value)]
    ensures !SignsUp(RegisterTrace(nombre, apellido, email, password, confirmPassword, reply))
    ensures !TouchesLoading(RegisterTrace(nombre, apellido, email, password, confirmPassword, reply))
  {
  }

  /** Sign-up is attempted exactly when both checks pass; it is then the
      second effect, right after the loading flag goes on, and the last
      effect turns the flag off again whatever the reply. */
  lemma SignUpBracketedByLoading(nombre: string, apellido: string, email: string, password: string,
                                 confirmPassword: string, reply: SignUpReply)
    ensures SignsUp(RegisterTrace(nombre, apellido, email, password, confirmPassword, reply))
            <==> password == confirmPassword && |password| >= MinPasswordLength
    ensures password == confirmPassword && |password| >= MinPasswordLength ==>
              var t := RegisterTrace(nombre, apellido, email, password, confirmPassword, reply);
              && t[0] == SetLoading(true) && t[1] == SignUp(email, password, nombre, apellido)
              && t[|t| - 1] == SetLoading(false)
              && forall i :: 1 <= i < |t| - 1 ==> !t[i].SetLoading?
  {
    var t := RegisterTrace(nombre, apellido, email, password, confirmPassword, reply);
    if password == confirmPassword && |password| >= MinPasswordLength {
      assert t[1].SignUp?;
    }
  }

  /** The page navigates to the login page only when the reply carries no
      error and a user, and then after the success toast. */
  lemma NavigatesOnlyOnSuccess(nombre: string, apellido: string, email: string, password: string,
                               confirmPassword: string, reply: SignUpReply)
    ensures var t := RegisterTrace(nombre, apellido, email, password, confirmPassword, reply);
            (exists i :: 0 <= i < |t| && t[i].Navigate?)
            <==> Validate(password, confirmPassword).None? && reply.error.None? && reply.hasUser
    ensures var t := RegisterTrace(nombre, apellido, email, password, confirmPassword, reply);
            forall i :: 0 <= i < |t| && t[i].Navigate? ==>
              t[i] == Navigate(LoginPath) && i > 0 && t[i - 1] == ToastSuccess(SuccessMessage)
  {
    var t := RegisterTrace(nombre, apellido, email, password, confirmPassword, reply);
    if Validate(password, confirmPassword).None? && reply.error.None? && reply.hasUser {
      assert t[3].Navigate?;
    }
  }

  /** The form's fields and the flag, plus the effects so far. */
  class RegisterForm {
    var nombre: string
    var apellido: string
    var email: string
    var password: string
    var confirmPassword: string
    var isLoading: bool
    var effects: seq<Effect>

    /** Every field empty, not loading, nothing done yet. */
    constructor ()
      ensures nombre == "" && apellido == "" && email == "" && password == "" && confirmPassword == ""
      ensures !isLoading && effects == []
    {
      nombre, apellido, email, password, confirmPassword := "", "", "", "", "";
      isLoading := false;
      effects := [];
    }

    /** `handleRegister`, with the awaited reply of the sign-up call. */
    method HandleRegister(reply: SignUpReply)
      modifies this`isLoading, this`effects
      ensures effects == old(effects) + RegisterTrace(nombre, apellido, email, password, confirmPassword, reply)
      ensures Validate(password, confirmPassword).Some? ==> isLoading == old(isLoading)
      ensures Validate(password, confirmPassword).None? ==> !isLoading
    {
      if password != confirmPassword {
        effects := effects + [ToastError(MismatchMessage)];
        return;
      }
      if |password| < MinPasswordLength {
        effects := effects + [ToastError(TooShortMessage)];
        return;
      }
      isLoading := true;
      effects := effects + [SetLoading(true)];
      effects := effects + [SignUp(email, password, nombre, apellido)];
      if reply.error.Some? {
        effects := effects + [ToastError(ErrorMessage(reply.error.value))];
      } else if reply.hasUser {
        effects := effects + [ToastSuccess(SuccessMessage)];
        effects := effects + [Navigate(LoginPath)];
      }
      isLoading := false;
      effects := effects + [SetLoading(false)];
    }
  }
}
