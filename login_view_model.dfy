/**
 * The login screen's controller: phone/OTP and email/password sign-in, a mock
 * Google sign-in, and the resets the screen performs.
 *
 * Each repository call returns at once; what the source does after the call
 * returns is the helper that takes the response (`CompleteSendOTP`,
 * `CompleteLogin`), so that its failure branches are modelled for any response.
 */
module LoginScreen {
  import opened Models
  import opened Repository

  datatype LoginMode = Phone | Email

  function Toggled(m: LoginMode): (r: LoginMode)
    ensures r != m
  {
    if m == Phone then Email else Phone
  }

  /** Toggling twice restores the mode. */
  lemma ToggleTwice(m: LoginMode)
    ensures Toggled(Toggled(m)) == m
  {
  }

  /** Every published field of the controller, as one value. */
  datatype LoginForm = LoginForm(
    loginMode: LoginMode, phoneNumber: string, otp: string, email: string, password: string,
    isOtpSent: bool, isLoading: bool, errorMessage: Option<string>, isLoggedIn: bool,
    currentUser: Option<User>)

  /** The message shown after a failed login: the response's own, or the screen's fallback. */
  function FailureMessage(response: LoginResponse, fallback: string): (m: string)
    ensures response.message.Some? ==> m == response.message.value
    ensures response.message.None? ==> m == fallback
  {
    match response.message
    case Some(msg) => msg
    case None => fallback
  }

  class LoginViewModel {
    var loginMode: LoginMode
    var phoneNumber: string
    var otp: string
    var email: string
    var password: string
    var isOtpSent: bool
    var isLoading: bool
    var errorMessage: Option<string>
    var isLoggedIn: bool
    var currentUser: Option<User>
    const repository: StudyNestRepository

    function Form(): LoginForm
      reads this
    {
      LoginForm(loginMode, phoneNumber, otp, email, password, isOtpSent, isLoading,
                errorMessage, isLoggedIn, currentUser)
    }

    constructor (repository: StudyNestRepository)
      ensures this.repository == repository
      ensures Form() == LoginForm(Phone, "", "", "", "", false, false, None, false, None)
    {
      this.repository := repository;
      loginMode := Phone;
      phoneNumber, otp, email, password := "", "", "", "";
      isOtpSent, isLoading := false, false;
      errorMessage := None;
      isLoggedIn := false;
      currentUser := None;
    }

    method SendOTP()
      modifies this
      ensures phoneNumber == "" ==> Form() == old(Form()).(errorMessage := Some("Please enter a phone number"))
      ensures phoneNumber != "" ==> Form() == old(Form()).(isLoading := false, errorMessage := None, isOtpSent := true)
    {
      if phoneNumber == "" {
        errorMessage := Some("Please enter a phone number");
        return;
      }
      isLoading := true;
      errorMessage := None;
      var success := StudyNestRepository.SendOTP(phoneNumber);
      CompleteSendOTP(success);
    }

    /** What `sendOTP` does once the repository has answered. */
    method CompleteSendOTP(success: bool)
      modifies this
      ensures success ==> Form() == old(Form()).(isLoading := false, isOtpSent := true)
      ensures !success ==> Form() == old(Form()).(isLoading := false, errorMessage := Some("Failed to send OTP. Please try again."))
    {
      isLoading := false;
      if success {
        isOtpSent := true;
      } else {
        errorMessage := Some("Failed to send OTP. Please try again.");
      }
    }

    /** OTP verification; `userId` and `tokenId` are the identifiers the mock draws. */
    method VerifyOTP(userId: string, tokenId: string)
      modifies this, repository.modelContext
      ensures otp == "" ==> Form() == old(Form()).(errorMessage := Some("Please enter the OTP"))
      ensures otp == "" && repository.modelContext != null ==> repository.modelContext.users == old(repository.modelContext.users)
      ensures otp != "" ==> currentUser.Some? && isLoggedIn && !isLoading && errorMessage.None?
      ensures otp != "" ==> currentUser.value.id == userId && currentUser.value.phone == Some(old(phoneNumber))
      ensures otp != "" ==> Form() == old(Form()).(isLoading := false, errorMessage := None, currentUser := currentUser, isLoggedIn := true)
      ensures otp != "" && repository.modelContext != null ==>
                repository.modelContext.users == Upsert(old(repository.modelContext.users), UserToEntity(currentUser.value), UserKey)
      ensures repository.modelContext != null ==> repository.modelContext.bookings == old(repository.modelContext.bookings)
    {
      if otp == "" {
        errorMessage := Some("Please enter the OTP");
        return;
      }
      isLoading := true;
      errorMessage := None;
      var response := StudyNestRepository.LoginWithOTP(phoneNumber, otp, userId, tokenId);
      CompleteLogin(response, "Invalid OTP");
    }

    /** Email login: the email is checked before the password. */
    method LoginWithEmail(userId: string, tokenId: string)
      modifies this, repository.modelContext
      ensures email == "" ==> Form() == old(Form()).(errorMessage := Some("Please enter your email"))
      ensures email != "" && password == "" ==> Form() == old(Form()).(errorMessage := Some("Please enter your password"))
      ensures (email == "" || password == "") && repository.modelContext != null ==>
                repository.modelContext.users == old(repository.modelContext.users)
      ensures email != "" && password != "" ==>
                Form() == old(Form()).(isLoading := false, errorMessage := None, currentUser := currentUser, isLoggedIn := true)
      ensures email != "" && password != "" ==> currentUser.Some? && currentUser.value.email == email && currentUser.value.id == userId
      ensures email != "" && password != "" && repository.modelContext != null ==>
                repository.modelContext.users == Upsert(old(repository.modelContext.users), UserToEntity(currentUser.value), UserKey)
      ensures repository.modelContext != null ==> repository.modelContext.bookings == old(repository.modelContext.bookings)
    {
      if email == "" {
        errorMessage := Some("Please enter your email");
        return;
      }
      if password == "" {
        errorMessage := Some("Please enter your password");
        return;
      }
      isLoading := true;
      errorMessage := None;
      var response := StudyNestRepository.Login(email, password, userId, tokenId);
      CompleteLogin(response, "Login failed");
    }

    /** What both login paths do once the repository has answered. */
    method CompleteLogin(response: LoginResponse, fallback: string)
      modifies this, repository.modelContext
      ensures response.success && response.user.Some? ==>
                Form() == old(Form()).(isLoading := false, currentUser := response.user, isLoggedIn := true)
      ensures response.success && response.user.Some? && repository.modelContext != null ==>
                repository.modelContext.users == Upsert(old(repository.modelContext.users), UserToEntity(response.user.value), UserKey)
      ensures !(response.success && response.user.Some?) ==>
                Form() == old(Form()).(isLoading := false, errorMessage := Some(FailureMessage(response, fallback)))
      ensures !(response.success && response.user.Some?) && repository.modelContext != null ==>
                repository.modelContext.users == old(repository.modelContext.users)
      ensures repository.modelContext != null ==> repository.modelContext.bookings == old(repository.modelContext.bookings)
    {
      isLoading := false;
      if response.success && response.user.Some? {
        var user := response.user.value;
        currentUser := Some(user);
        repository.SaveUser(user);
        isLoggedIn := true;
      } else {
        errorMessage := Some(FailureMessage(response, fallback));
      }
    }

    /** The mock Google sign-in: always succeeds with a fixed account. */
    method LoginWithGoogle(userId: string)
      modifies this, repository.modelContext
      ensures currentUser == Some(User(userId, "Google User", "google.user@gmail.com", None, None))
      ensures Form() == old(Form()).(isLoading := false, errorMessage := None, currentUser := currentUser, isLoggedIn := true)
      ensures repository.modelContext != null ==>
                repository.modelContext.users == Upsert(old(repository.modelContext.users), UserToEntity(currentUser.value), UserKey)
      ensures repository.modelContext != null ==> repository.modelContext.bookings == old(repository.modelContext.bookings)
    {
      isLoading := true;
      errorMessage := None;
      var user := User(userId, "Google User", "google.user@gmail.com", None, None);
      isLoading := false;
      currentUser := Some(user);
      repository.SaveUser(user);
      isLoggedIn := true;
    }

    method ToggleLoginMode()
      modifies this
      ensures Form() == old(Form()).(loginMode := Toggled(old(loginMode)), errorMessage := None)
    {
      loginMode := if loginMode == Phone then Email else Phone;
      errorMessage := None;
    }

    method ResetOTP()
      modifies this
      ensures Form() == old(Form()).(isOtpSent := false, otp := "")
    {
      isOtpSent := false;
      otp := "";
    }

    /** Clears the form after a successful login; the mode and the user stay. */
    method ResetLoginState()
      modifies this
      ensures Form() == LoginForm(old(loginMode), "", "", "", "", false, false, None, false, old(currentUser))
    {
      phoneNumber := "";
      otp := "";
      email := "";
      password := "";
      isOtpSent := false;
      isLoading := false;
      errorMessage := None;
      isLoggedIn := false;
    }
  }
}
