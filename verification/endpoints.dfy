/** The API configuration constants (constants/api.ts): the base URL and the auth endpoints. */
module Endpoints {
  const API_BASE_URL: string := "http://localhost:8080/api"

  const LOGIN: string := "/auth/login"
  const REGISTER: string := "/auth/register"
  const VERIFY_EMAIL: string := "/auth/verify-email"
  const ONBOARDING: string := "/auth/onboarding"
  const RESEND_CODE: string := "/auth/resend-verification"
  const ME: string := "/auth/me"
}
